/** The store as the process runs it: fields updated in place, and loops over rows, buckets and files. */
module CapeService {
  import opened Options
  import opened StoreClock
  import opened CapeJob
  import opened CapeProtocol
  import opened CapeCalls
  import opened CapeMaintenance
  import S = CapeStore
  import TB = TokenBucket

  /** The attempts among `ids` that belong to the tenant. */
  ghost function Among(live: map<Id, string>, ids: set<Id>, tenant: string): set<Id> {
    set id | id in ids && id in live && live[id] == tenant
  }

  lemma AmongStep(live: map<Id, string>, ids: set<Id>, tenant: string, id: Id)
    requires id in live && id !in ids
    ensures |Among(live, ids + {id}, tenant)| == |Among(live, ids, tenant)| + if live[id] == tenant then 1 else 0
  {
    assert Among(live, ids + {id}, tenant) ==
           if live[id] == tenant then Among(live, ids, tenant) + {id} else Among(live, ids, tenant);
  }

  /** The table while rows `rest` still wait for the job pass. */
  ghost function Partly(jobs: map<Id, Job>, rest: set<Id>): map<Id, Job> {
    map id | id in jobs && (id in rest || !jobs[id].state.Staging?) ::
      if id in rest then jobs[id] else S.Reconciled(jobs[id])
  }

  ghost function PartlyBlobs(jobs: map<Id, Job>, blobs: map<Id, int>, rest: set<Id>): map<Id, int> {
    map id | id in blobs && (id !in jobs || id in rest || NeedsPayload(jobs[id].state)) :: blobs[id]
  }

  ghost function PartlyTmps(jobs: map<Id, Job>, tmps: set<Id>, rest: set<Id>): set<Id> {
    set id | id in tmps && (id !in jobs || id in rest || !jobs[id].state.Staging?)
  }

  /** The job pass so far. */
  ghost predicate Passed(loaded: map<Id, Job>, blobs0: map<Id, int>, tmps0: set<Id>, rest: set<Id>,
                         jobs: map<Id, Job>, blobs: map<Id, int>, tmps: set<Id>) {
    && jobs == Partly(loaded, rest)
    && blobs == PartlyBlobs(loaded, blobs0, rest) && tmps == PartlyTmps(loaded, tmps0, rest)
  }

  lemma PassStarts(jobs: map<Id, Job>, blobs: map<Id, int>, tmps: set<Id>)
    ensures Passed(jobs, blobs, tmps, jobs.Keys, jobs, blobs, tmps)
  {
  }

  lemma PassesRow(loaded: map<Id, Job>, rest: set<Id>, id: Id)
    requires id in rest && rest <= loaded.Keys
    ensures Partly(loaded, rest - {id}) ==
            if loaded[id].state.Staging? then Partly(loaded, rest) - {id}
            else Partly(loaded, rest)[id := S.Reconciled(loaded[id])]
  {
  }

  lemma PassesFiles(loaded: map<Id, Job>, blobs0: map<Id, int>, tmps0: set<Id>, rest: set<Id>, id: Id)
    requires id in rest && rest <= loaded.Keys
    ensures PartlyBlobs(loaded, blobs0, rest - {id}) ==
            if NeedsPayload(loaded[id].state) then PartlyBlobs(loaded, blobs0, rest)
            else PartlyBlobs(loaded, blobs0, rest) - {id}
    ensures PartlyTmps(loaded, tmps0, rest - {id}) ==
            if loaded[id].state.Staging? then PartlyTmps(loaded, tmps0, rest) - {id}
            else PartlyTmps(loaded, tmps0, rest)
  {
  }

  /** One row of the job pass. */
  lemma PassesOne(loaded: map<Id, Job>, blobs0: map<Id, int>, tmps0: set<Id>, rest: set<Id>,
                  jobs: map<Id, Job>, blobs: map<Id, int>, tmps: set<Id>, id: Id)
    requires Passed(loaded, blobs0, tmps0, rest, jobs, blobs, tmps) && id in rest && rest <= loaded.Keys
    ensures var j := loaded[id];
            Passed(loaded, blobs0, tmps0, rest - {id},
                   if j.state.Staging? then jobs - {id}
                   else if j.state.Submitting? then jobs[id := Recovered(j)] else jobs,
                   if NeedsPayload(j.state) then blobs else blobs - {id},
                   if j.state.Staging? then tmps - {id} else tmps)
  {
    PassesRow(loaded, rest, id);
    PassesFiles(loaded, blobs0, tmps0, rest, id);
    if !loaded[id].state.Staging? && !loaded[id].state.Submitting? {
      assert jobs[id := loaded[id]] == jobs;
    }
  }

  lemma PassEnds(s: S.Store, jobs: map<Id, Job>, blobs: map<Id, int>, tmps: set<Id>)
    requires Passed(s.jobs, s.blobs, s.tmps, {}, jobs, blobs, tmps)
    ensures jobs == S.ReconciledJobs(s.jobs) && blobs == S.PassedBlobs(s) && tmps == S.PassedTmps(s)
  {
  }

  /** The payloads that survive a restart. */
  ghost function Kept(jobs: map<Id, Job>, blobs: map<Id, int>): map<Id, int> {
    map id | id in blobs && S.KeepsPayload(jobs, id) :: blobs[id]
  }

  ghost function KeptOrWaiting(jobs: map<Id, Job>, blobs: map<Id, int>, files: set<S.Entry>): map<Id, int> {
    map id | id in blobs && (S.Blob(id) in files || S.KeepsPayload(jobs, id)) :: blobs[id]
  }

  ghost function Waiting(tmps: set<Id>, files: set<S.Entry>): set<Id> {
    set id | id in tmps && S.Tmp(id) in files
  }

  /** Every payload that is still needed is there. */
  predicate Complete(jobs: map<Id, Job>, blobs: map<Id, int>) {
    forall id :: id in jobs && S.KeepsPayload(jobs, id) ==> id in blobs
  }

  /** A needed payload has the wrong size. */
  ghost predicate Damaged(jobs: map<Id, Job>, blobs: map<Id, int>) {
    exists id :: id in blobs && S.KeepsPayload(jobs, id) && !S.PayloadOk(jobs, blobs, id)
  }

  /** The spool pass leaves exactly the needed payloads, each whole. */
  ghost predicate SpoolRecovered(jobs: map<Id, Job>, before: map<Id, int>, blobs: map<Id, int>) {
    blobs == Kept(jobs, before) && forall id :: id in blobs ==> id in jobs && S.PayloadOk(jobs, before, id)
  }

  /** The spool pass so far: `files` still wait, of the others only whole payloads that are needed are left. */
  ghost predicate Swept(jobs: map<Id, Job>, blobs0: map<Id, int>, tmps0: set<Id>, files: set<S.Entry>,
                        blobs: map<Id, int>, tmps: set<Id>) {
    && files <= S.SpoolFiles(blobs0, tmps0)
    && tmps == Waiting(tmps0, files) && blobs == KeptOrWaiting(jobs, blobs0, files)
    && forall id :: id in blobs && S.Blob(id) !in files ==> id in jobs && S.PayloadOk(jobs, blobs0, id)
  }

  lemma SweepsOne(jobs: map<Id, Job>, blobs0: map<Id, int>, tmps0: set<Id>, files: set<S.Entry>,
                  blobs: map<Id, int>, tmps: set<Id>, e: S.Entry)
    requires Swept(jobs, blobs0, tmps0, files, blobs, tmps) && e in files
    requires e.Blob? && S.KeepsPayload(jobs, e.id) ==> S.PayloadOk(jobs, blobs, e.id)
    ensures Swept(jobs, blobs0, tmps0, files - {e},
                  if e.Blob? && !S.KeepsPayload(jobs, e.id) then blobs - {e.id} else blobs,
                  if e.Tmp? then tmps - {e.id} else tmps)
  {
  }

  lemma Listed(jobs: map<Id, Job>, blobs0: map<Id, int>, tmps0: set<Id>, files: set<S.Entry>,
               blobs: map<Id, int>, tmps: set<Id>, e: S.Entry)
    requires Swept(jobs, blobs0, tmps0, files, blobs, tmps) && e in files
    ensures e.Blob? ==> e.id in blobs && e.id in blobs0 && blobs[e.id] == blobs0[e.id]
  {
  }

  lemma SweptStart(jobs: map<Id, Job>, blobs: map<Id, int>, tmps: set<Id>)
    ensures Swept(jobs, blobs, tmps, S.SpoolFiles(blobs, tmps), blobs, tmps)
  {
  }

  lemma SweptEnd(jobs: map<Id, Job>, blobs0: map<Id, int>, tmps0: set<Id>, blobs: map<Id, int>, tmps: set<Id>)
    requires Swept(jobs, blobs0, tmps0, {}, blobs, tmps)
    ensures tmps == {} && SpoolRecovered(jobs, blobs0, blobs)
  {
  }

  /** What the spool pass says about the payloads the job pass left is what recovery asks for. */
  lemma RecoverSucceeds(s: S.Store, jobs: map<Id, Job>, blobs: map<Id, int>)
    requires jobs == S.ReconciledJobs(s.jobs) && SpoolRecovered(jobs, S.PassedBlobs(s), blobs) && Complete(jobs, blobs)
    ensures !S.Incomplete(s) && blobs == S.Cleaned(s).blobs
  {
    assert blobs == map id | id in s.blobs && S.KeepsPayload(jobs, id) :: s.blobs[id];
  }

  lemma RecoverRefuses(s: S.Store, jobs: map<Id, Job>)
    requires jobs == S.ReconciledJobs(s.jobs) && (Damaged(jobs, S.PassedBlobs(s)) || !Complete(jobs, S.PassedBlobs(s)))
    ensures S.Incomplete(s)
  {
  }

  function Sum(chunks: seq<nat>): nat {
    if chunks == [] then 0 else Sum(chunks[..|chunks| - 1]) + chunks[|chunks| - 1]
  }

  lemma {:induction false} SumGrows(chunks: seq<nat>, k: nat)
    requires k <= |chunks|
    ensures Sum(chunks[..k]) <= Sum(chunks)
    decreases |chunks| - k
  {
    if k == |chunks| {
      assert chunks[..k] == chunks;
    } else {
      assert chunks[..k + 1][..k] == chunks[..k];
      SumGrows(chunks, k + 1);
    }
  }

  /** Ingress counts what it reads: an empty or an oversized body is refused before it is published. */
  method CountIngress(chunks: seq<nat>, maxAttachment: nat) returns (r: S.Result<nat>)
    ensures r.Ok? <==> 1 <= Sum(chunks) <= maxAttachment
    ensures r.Ok? ==> r.value == Sum(chunks)
    ensures r.Err? ==> r.error == S.Local(if Sum(chunks) > maxAttachment then TooLarge else Invalid)
  {
    var size: nat := 0;
    for i := 0 to |chunks|
      invariant size == Sum(chunks[..i]) && size <= maxAttachment
    {
      assert chunks[..i + 1][..i] == chunks[..i];
      if chunks[i] > maxAttachment - size {
        SumGrows(chunks, i + 1);
        return S.Err(S.Local(TooLarge));
      }
      size := size + chunks[i];
    }
    assert chunks[..|chunks|] == chunks;
    r := if size == 0 then S.Err(S.Local(Invalid)) else S.Ok(size);
  }

  /** The answer of the two passes is the answer of recovery. */
  lemma RecoverMeans(s: S.Store, jobs: map<Id, Job>, blobs: map<Id, int>, ok: bool)
    requires jobs == S.ReconciledJobs(s.jobs)
    requires ok ==> SpoolRecovered(jobs, S.PassedBlobs(s), blobs) && Complete(jobs, blobs) && !S.Overfull(s)
    requires !ok ==> S.Overfull(s) || Damaged(jobs, S.PassedBlobs(s)) || !Complete(jobs, S.PassedBlobs(s))
    ensures ok <==> S.Recover(s).Ok?
    ensures ok ==> S.Cleaned(s) == s.(jobs := jobs, blobs := blobs, tmps := {}, unsynced := {})
  {
    if ok {
      RecoverSucceeds(s, jobs, blobs);
    } else if !S.Overfull(s) {
      RecoverRefuses(s, jobs);
    }
  }

  lemma RetainAllSnoc(s: S.Store, ids: seq<Id>, i: nat, now: int, removal: Id -> Removal)
    requires i < |ids|
    ensures RetainAll(s, ids[..i + 1], now) == S.Retain(RetainAll(s, ids[..i], now), ids[i], now)
    ensures Clears(s, ids[..i + 1], now, removal) <==>
            Clears(s, ids[..i], now, removal) && !Stops(RetainAll(s, ids[..i], now), ids[i], removal(ids[i]))
  {
    assert ids[..i + 1][..i] == ids[..i];
  }

  class Service {
    var jobs: map<Id, Job>
    var clock: Option<int>
    var buckets: map<S.BucketName, TB.Bucket>
    var paused: set<string>
    var blobs: map<Id, int>
    var tmps: set<Id>
    ghost var unsynced: set<Id>
    var active: map<Id, S.Writer>
    var live: map<Id, string>

    ghost function View(): S.Store
      reads this
    {
      S.Store(jobs, clock, buckets, paused, blobs, tmps, unsynced, active, live)
    }

    constructor ()
      ensures View() == EmptyStore
    {
      jobs, clock, buckets, paused := map[], None, map[], {};
      blobs, tmps, unsynced, active, live := map[], {}, {}, map[], map[];
    }

    /** Look for a row that admission must reuse. */
    method FindReusable(key: Key, now: int) returns (found: Option<Id>)
      ensures found.Some? <==> S.HasReusable(jobs, key, now)
      ensures found.Some? ==> found.value in jobs && jobs[found.value].key == key && Reusable(jobs[found.value], now)
    {
      var rest := jobs.Keys;
      while rest != {}
        invariant rest <= jobs.Keys
        invariant forall id :: id in jobs && id !in rest ==> !(jobs[id].key == key && Reusable(jobs[id], now))
        decreases |rest|
      {
        var id :| id in rest;
        if jobs[id].key == key && Reusable(jobs[id], now) {
          return Some(id);
        }
        rest := rest - {id};
      }
      found := None;
    }

    /** The finished writer publishes its row, unless the content is already known under the same key. */
    method Publish(id: Id, verdict: string, reading: int, fault: Fault) returns (reused: Option<Id>)
      requires id in active && active[id].Written?
      modifies this`jobs, this`clock
      ensures View() == PublishStep(old(View()), id, verdict, reading, fault)
      ensures reused.Some? ==> jobs == old(jobs)
    {
      reused := None;
      var now := Now(clock, reading);
      if && now.Some? && id in jobs && jobs[id].state.Staging? && jobs[id].version == 1
         && now.value < jobs[id].due.ingress {
        var w := active[id];
        reused := FindReusable(jobs[id].key.(digest := w.digest), now.value);
        if fault.Commits() {
          clock := now;
          if reused.None? {
            jobs := jobs[id := Published(jobs[id], w.size, w.digest, verdict)];
          }
        }
      }
    }

    /** How many live attempts the tenant has. */
    method CountOwn(tenant: string) returns (n: nat)
      ensures n == |S.Own(live, tenant)|
    {
      n := 0;
      var attempts := live;
      var rest := attempts.Keys;
      while rest != {}
        invariant rest <= attempts.Keys
        invariant n == |Among(attempts, attempts.Keys - rest, tenant)|
        decreases |rest|
      {
        var id :| id in rest;
        AmongStep(attempts, attempts.Keys - rest, tenant, id);
        assert attempts.Keys - (rest - {id}) == attempts.Keys - rest + {id};
        if attempts[id] == tenant {
          n := n + 1;
        }
        rest := rest - {id};
      }
      assert S.Own(live, tenant) == Among(attempts, attempts.Keys - rest, tenant);
    }

    method TakeTokens(cfg: S.Config, names: seq<S.BucketName>, now: int)
      returns (r: S.Result<map<S.BucketName, TB.Bucket>>)
      ensures r == S.TakeAll(cfg, buckets, names, now)
    {
      var left := buckets;
      for i := 0 to |names|
        invariant S.TakeAll(cfg, left, names[i..], now) == S.TakeAll(cfg, buckets, names, now)
      {
        assert names[i..][1..] == names[i + 1..];
        match TB.TakeToken(S.Stored(left, names[i]), S.Rate(cfg, names[i]), now)
        case Granted(b) => left := left[names[i] := b];
        case Throttled => return S.Err(S.Local(Throttled));
        case ClockBack => return S.Err(S.ClockBack);
        case Corrupt => return S.Err(S.Unavailable);
      }
      r := S.Ok(left);
    }

    /** Commit ownership of an attempt. Only `Ok` permits sending. */
    method BeginSubmission(cfg: S.Config, id: Id, version: int, reading: int, fault: Fault) returns (r: S.Result<Job>)
      modifies this
      ensures var t := S.BeginSubmission(cfg, old(View()), id, version, reading);
              && (r.Ok? <==> t.Ok? && fault.NoFault?)
              && (t.Err? ==> r == S.Err(t.error))
              && (t.Ok? ==> id in t.value.jobs && (r.Ok? ==> r.value == t.value.jobs[id]))
              && (t.Err? || fault.Rollback? ==> View() == old(View()))
              && (t.Ok? && fault == CommitError ==> View() == t.value)
              && (t.Ok? && fault.Reported() ==>
                    View() == t.value.(live := old(live)[id := t.value.jobs[id].key.tenant]))
    {
      if id !in jobs {
        return S.Err(S.Local(NotFound));
      }
      var j := jobs[id];
      if !j.state.Queued? || j.version != version {
        return S.Err(S.Conflict);
      }
      if j.key.generation in paused {
        return S.Err(S.Local(Unauthorized));
      }
      var now := Now(clock, reading);
      if now.None? {
        return S.Err(S.ClockBack);
      }
      if now.value >= j.due.queue || now.value >= j.due.analysis {
        return S.Err(S.Local(Deadline));
      }
      if Before(now.value, j.polling.nextAttempt) {
        return S.Err(S.Local(Throttled));
      }
      var own := CountOwn(j.key.tenant);
      if |live| >= cfg.concurrency || own >= cfg.tenantConcurrency {
        return S.Err(S.Local(Throttled));
      }
      var tokens := TakeTokens(cfg, S.SubmitBuckets(j.key.tenant), now.value);
      if tokens.Err? {
        return S.Err(tokens.error);
      }
      var k := Begun(j, now.value);
      if fault.Commits() {
        jobs, clock, buckets := jobs[id := k], now, tokens.value;
      }
      if fault.Reported() {
        live := live[id := k.key.tenant];
      }
      r := if fault.NoFault? then S.Ok(k) else S.Err(S.Unavailable);
    }

    /** The record transaction: `row` is the committed row. */
    method RecordTransaction(id: Id, version: int, sub: Submission, outcome: Code, backoff: int, reading: int, raw: int,
                             fault: Fault) returns (row: Option<Job>)
      modifies this`jobs, this`clock
      ensures var t := S.RecordSubmission(old(View()), id, version, sub, outcome, backoff, reading, raw);
              if t.Err? || fault.Rollback? then row.None? && View() == old(View())
              else id in t.value.jobs && row == Some(t.value.jobs[id]) && View() == t.value
    {
      row := None;
      if id in jobs && Recordable(jobs[id], version) {
        var now := Now(clock, reading);
        var k := Recorded(jobs[id], sub, outcome, backoff, if now.Some? then now.value else 0, raw);
        if fault.Commits() && (now.Some? || !k.state.Queued?) {
          row := Some(k);
          jobs := jobs[id := k];
          if k.state.Queued? {
            clock := now;
          }
        }
      }
    }

    /** Record an attempt's outcome, free its slot, then drop a payload that is no longer needed. An error may come
        instead of the commit, from it, or from what follows it. */
    method RecordSubmission(id: Id, version: int, sub: Submission, outcome: Code, backoff: int, reading: int, raw: int,
                            fault: Fault, removal: Removal) returns (ok: bool)
      modifies this
      ensures var r := S.RecordSubmission(old(View()), id, version, sub, outcome, backoff, reading, raw);
              ok == RecordOk(r, id, fault, removal) && View() == AfterRecord(old(View()), r, id, fault, removal)
    {
      var row := RecordTransaction(id, version, sub, outcome, backoff, reading, raw, fault);
      ok := false;
      if row.Some? {
        ok := Finish(id, row.value.state, fault, removal);
      }
    }

    method Finish(id: Id, state: State, fault: Fault, removal: Removal) returns (ok: bool)
      requires id in jobs && jobs[id].state == state && fault.Commits()
      modifies this`live, this`blobs, this`unsynced
      ensures View() == Committed(old(View()), id, fault, removal)
      ensures ok <==> fault.NoFault? && (Leaves(old(View()), id) ==> Cleared(old(View()), id, removal))
    {
      ok := fault.NoFault?;
      if fault.Reported() {
        live := live - {id};
        if state.RemotePending? || Terminal(state) {
          var gone := RemovePayload(id, removal);
          ok := ok && gone;
        }
      }
    }

    /** Unlink a payload, and sync the directory only if there was one. */
    method RemovePayload(id: Id, removal: Removal) returns (ok: bool)
      modifies this`blobs, this`unsynced
      ensures View() == Remove(old(View()), id, removal) && ok == Cleared(old(View()), id, removal)
    {
      if removal.Stuck? {
        return false;
      }
      ok := true;
      if id in blobs {
        blobs := blobs - {id};
        ok := removal.Removed?;
        unsynced := if ok then {} else unsynced + {id};
      }
    }

    /** Cancel a row, then drop its payload. */
    method Cancel(id: Id, reading: int, fault: Fault, removal: Removal) returns (ok: bool)
      modifies this
      ensures var r := S.Cancel(old(View()), id, reading);
              ok == CancelOk(r, id, fault, removal) && View() == AfterCancel(old(View()), r, id, fault, removal)
    {
      ok := false;
      if id in jobs && fault.Commits() {
        var j := jobs[id];
        if !j.state.Staging? && !j.state.Cancelled? {
          var reached := Now(clock, reading);
          if reached.Some? {
            clock := reached;
          }
          jobs := jobs[id := Terminated(j, Cancelled, NoCode, clock.value).(version := j.version + 1)];
        }
        ok := fault.NoFault?;
        if fault.Reported() && !j.state.Staging? {
          var gone := RemovePayload(id, removal);
          ok := ok && gone;
        }
      }
    }

    /** Drop a staging row: the temporary file first, then the blob, then, once the directory is synced, the row. */
    method CleanupStaging(id: Id, unlinked: Unlinked, fault: Fault) returns (ok: bool)
      modifies this`jobs, this`tmps, this`blobs, this`unsynced
      ensures View() == CapeProtocol.CleanupStaging(old(View()), id, unlinked, fault)
      ensures ok <==> id in old(jobs) && old(jobs)[id].state.Staging? && unlinked.Synced? && fault.NoFault?
    {
      ok := false;
      if id !in jobs || !jobs[id].state.Staging? || unlinked.Neither? {
        return;
      }
      tmps := tmps - {id};
      if unlinked.OnlyTmp? {
        return;
      }
      blobs := blobs - {id};
      if unlinked.Both? {
        return;
      }
      unsynced := {};
      if fault.Commits() {
        jobs := jobs - {id};
        ok := fault.NoFault?;
      }
    }

    /** The deadline pass of maintenance over one batch, in one transaction. */
    method ExpirePass(ids: seq<Id>, reading: int, fault: Fault) returns (ok: bool)
      modifies this`jobs, this`clock
      ensures ok <==> Now(old(clock), reading).Some? && fault.NoFault?
      ensures View() == if Now(old(clock), reading).None? || fault.Rollback? then old(View())
                        else ExpireAll(old(View()), ids, reading)
    {
      var now := Now(clock, reading);
      ok := false;
      if now.Some? {
        var table := jobs;
        ghost var before := View();
        for i := 0 to |ids|
          invariant jobs == old(jobs) && clock == old(clock)
          invariant ExpireAll(before, ids[..i], reading) == before.(jobs := table, clock := now)
        {
          assert ids[..i + 1][..i] == ids[..i];
          ExpireOnce(before.(jobs := table, clock := now), ids[i], reading);
          table := Overdue(table, ids[i], now.value);
        }
        assert ids[..|ids|] == ids;
        if fault.Commits() {
          jobs, clock := table, now;
        }
        ok := fault.NoFault?;
      }
    }

    /** The retention pass over one batch: payloads go at once, rows with the transaction. It stops at the first row
        `n` whose payload cannot be removed and synced. */
    method RetainPass(ids: seq<Id>, now: int, removal: Id -> Removal, fault: Fault) returns (ok: bool, ghost n: nat)
      modifies this`jobs, this`blobs, this`unsynced
      ensures ok <==> n == |ids| && fault.NoFault?
      ensures n <= |ids| && Clears(old(View()), ids[..n], now, removal)
      ensures var before := old(View());
              if n < |ids| then
                var reached := RetainAll(before, ids[..n], now);
                && Stops(reached, ids[n], removal(ids[n]))
                && View() == WithFiles(before, Remove(reached, ids[n], removal(ids[n])))
              else if fault.Commits() then View() == RetainAll(before, ids, now)
              else View() == WithFiles(before, RetainAll(before, ids, now))
    {
      var table := jobs;
      ghost var before := View();
      for i := 0 to |ids|
        invariant jobs == old(jobs)
        invariant RetainAll(before, ids[..i], now) == before.(jobs := table, blobs := blobs, unsynced := unsynced)
        invariant Clears(before, ids[..i], now, removal)
      {
        RetainAllSnoc(before, ids, i, now, removal);
        ghost var reached := RetainAll(before, ids[..i], now);
        ok, table := RetainOne(table, ids[i], now, removal(ids[i]), reached);
        if !ok {
          return false, i;
        }
      }
      assert ids[..|ids|] == ids;
      if fault.Commits() {
        jobs := table;
      }
      ok, n := fault.NoFault?, |ids|;
    }

    /** One row of the pass: its payload goes, and the row in the table is kept, minimized or dropped. */
    method RetainOne(table: map<Id, Job>, id: Id, now: int, removal: Removal, ghost t: S.Store)
      returns (ok: bool, after: map<Id, Job>)
      requires t == View().(jobs := table)
      modifies this`blobs, this`unsynced
      ensures ok <==> !Stops(t, id, removal)
      ensures View().(jobs := after) == if ok then S.Retain(t, id, now) else Remove(t, id, removal)
    {
      ok, after := true, table;
      if id in table && !NeedsPayload(table[id].state) && !table[id].state.Staging? {
        var j := table[id];
        ok := RemovePayload(id, removal);
        if ok && Terminal(j.state) && j.terminalAt.Some? && now >= j.terminalAt.value + 24 * HOUR {
          if S.Forgettable(j) {
            after := table - {id};
          } else if Minimized(j) != j {
            after := table[id := Minimized(j).(version := j.version + 1)];
          }
        }
      }
    }

    /** The job pass of recovery: staging rows go with their files, submitting rows become uncertain, and rows past
        submission lose their payload. */
    method RecoverRows()
      modifies this`jobs, this`blobs, this`tmps
      ensures jobs == S.ReconciledJobs(old(jobs))
      ensures blobs == S.PassedBlobs(old(View())) && tmps == S.PassedTmps(old(View()))
    {
      var loaded := jobs;
      var rest := loaded.Keys;
      ghost var blobs0, tmps0 := blobs, tmps;
      PassStarts(loaded, blobs, tmps);
      while rest != {}
        invariant rest <= loaded.Keys
        invariant Passed(loaded, blobs0, tmps0, rest, jobs, blobs, tmps)
        decreases |rest|
      {
        var id :| id in rest;
        PassesOne(loaded, blobs0, tmps0, rest, jobs, blobs, tmps, id);
        var j := loaded[id];
        if j.state.Staging? {
          tmps, blobs := tmps - {id}, blobs - {id};
          jobs := jobs - {id};
        } else if j.state.Submitting? {
          jobs := jobs[id := Recovered(j)];
        } else if j.state.RemotePending? || j.state.Fetching? || Terminal(j.state) {
          blobs := blobs - {id};
        }
        rest := rest - {id};
      }
      PassEnds(old(View()), jobs, blobs, tmps);
    }

    /** One spool entry: a whole payload that is still needed is kept, one of the wrong size refuses, the rest goes. */
    method RecoverEntry(e: S.Entry) returns (ok: bool)
      requires e.Blob? ==> e.id in blobs
      modifies this`blobs, this`tmps
      ensures ok <==> (e.Blob? && S.KeepsPayload(jobs, e.id) ==> S.PayloadOk(jobs, old(blobs), e.id))
      ensures tmps == if e.Tmp? then old(tmps) - {e.id} else old(tmps)
      ensures blobs == if e.Blob? && !S.KeepsPayload(jobs, e.id) then old(blobs) - {e.id} else old(blobs)
    {
      ok := true;
      if e.Tmp? {
        tmps := tmps - {e.id};
      } else if S.KeepsPayload(jobs, e.id) {
        ok := S.PayloadOk(jobs, blobs, e.id);
      } else {
        blobs := blobs - {e.id};
      }
    }

    /** The spool pass: every entry is looked at once, at most twenty thousand of them. */
    method RecoverSpool() returns (ok: bool)
      modifies this`blobs, this`tmps
      ensures ok ==> tmps == {} && SpoolRecovered(jobs, old(blobs), blobs)
      ensures ok ==> |S.SpoolFiles(old(blobs), old(tmps))| <= 20_000
      ensures !ok ==> |S.SpoolFiles(old(blobs), old(tmps))| > 20_000 || Damaged(jobs, old(blobs))
    {
      var files := S.SpoolFiles(blobs, tmps);
      var count := 0;
      ghost var blobs0, tmps0 := blobs, tmps;
      SweptStart(jobs, blobs, tmps);
      while files != {}
        invariant count + |files| == |S.SpoolFiles(blobs0, tmps0)| && count <= 20_000
        invariant Swept(jobs, blobs0, tmps0, files, blobs, tmps)
        decreases |files|
      {
        var e :| e in files;
        count := count + 1;
        if count > 20_000 {
          return false;
        }
        ghost var blobs1, tmps1 := blobs, tmps;
        Listed(jobs, blobs0, tmps0, files, blobs, tmps, e);
        ok := RecoverEntry(e);
        if !ok {
          return;
        }
        SweepsOne(jobs, blobs0, tmps0, files, blobs1, tmps1, e);
        files := files - {e};
      }
      SweptEnd(jobs, blobs0, tmps0, blobs, tmps);
      ok := true;
    }

    /** The spool pass and the last look for payloads that are missing. */
    method RecoverFiles() returns (ok: bool)
      modifies this`blobs, this`tmps
      ensures ok ==> tmps == {} && SpoolRecovered(jobs, old(blobs), blobs) && Complete(jobs, blobs)
      ensures ok ==> |S.SpoolFiles(old(blobs), old(tmps))| <= 20_000
      ensures !ok ==> || |S.SpoolFiles(old(blobs), old(tmps))| > 20_000
                      || Damaged(jobs, old(blobs)) || !Complete(jobs, old(blobs))
    {
      ok := RecoverSpool();
      if ok {
        ok := Complete(jobs, blobs);
      }
    }

    /** Recovery on start: it succeeds exactly when the specification does, and reaches the same store. */
    method Recover() returns (ok: bool)
      modifies this`jobs, this`blobs, this`tmps, this`unsynced
      ensures ok <==> S.Recover(old(View())).Ok?
      ensures ok ==> View() == S.Cleaned(old(View()))
    {
      if |jobs| > 10_000 {
        return false;
      }
      RecoverRows();
      ok := RecoverFiles();
      RecoverMeans(old(View()), jobs, blobs, ok);
      if ok {
        unsynced := {};
      }
    }
  }
}
