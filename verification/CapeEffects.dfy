/** When a cancellation, a report, a deletion or retention takes effect on a row, and on that row alone. */
module CapeEffects {
  import opened Options
  import opened StoreClock
  import opened CapeJob
  import opened CapeProtocol
  import opened CapeSafety
  import opened CapeOutcomes
  import opened CapeBuckets
  import opened CapeDeadlines
  import S = CapeStore
  import TB = TokenBucket

  /** No other row changes. */
  ghost predicate OnlyRow(s: S.Store, t: S.Store, id: Id) {
    id in s.jobs && id in t.jobs && t.jobs == s.jobs[id := t.jobs[id]]
  }

  /** Cancellation ends every published row, at store time, also when the clock was set back; an attempt in flight
      leaves a doubt. A staging row is left to its writer. */
  lemma CancelTakesEffect(s: S.Store, id: Id, reading: int)
    requires RowsOk(s.jobs)
    ensures var r, now := S.Cancel(s, id, reading), Later(s.clock, reading);
            && (r.Ok? <==> id in s.jobs)
            && (r.Ok? && !s.jobs[id].state.Staging? ==>
                  && OnlyRow(s, r.value, id)
                  && var j, k := s.jobs[id], r.value.jobs[id];
                     && k.state.Cancelled? && k.suppressed && k.result.None? && k.taskIds == j.taskIds
                     && k.terminalAt == Some(if Terminal(j.state) then j.terminalAt.value else now)
                     && (j.state.Submitting? || j.state.SubmitUncertain? ==> Doubtful(k)))
            && (r.Ok? && s.jobs[id].state.Staging? ==> r.value == s)
  {
    StoreTime(s.clock, reading);
    if id in s.jobs && !s.jobs[id].state.Staging? {
      assert RowOk(s.jobs[id]);
      CancelEnds(s, id, reading);
    }
  }

  lemma CancelEnds(s: S.Store, id: Id, reading: int)
    requires id in s.jobs && RowOk(s.jobs[id]) && !s.jobs[id].state.Staging?
    ensures var r, now := S.Cancel(s, id, reading), Later(s.clock, reading);
            && r.Ok?
            && r.value.jobs == if s.jobs[id].state.Cancelled? then s.jobs
                               else s.jobs[id := Terminated(s.jobs[id], Cancelled, NoCode, now)
                                                   .(version := s.jobs[id].version + 1)]
  {
    StoreTime(s.clock, reading);
  }

  /** News is taken exactly from the one task the row owns, in the state that waits for it, before its day is over. */
  ghost predicate MayReport(s: S.Store, id: Id, task: TaskRef, p: Progress, reading: int) {
    && id in s.jobs && InStep(s.clock, reading)
    && var j := s.jobs[id];
       && (j.state.RemotePending? ==> p.Reported? || p.StillActive? || p.RemoteFailed?)
       && (j.state.Fetching? ==> p.Mapped? || p.Unmapped? || p.ReportError?)
       && (j.state.RemotePending? || j.state.Fetching?)
       && j.taskIds == [task.id] && j.key.generation == task.generation
       && Later(s.clock, reading) < j.due.created + 24 * HOUR
  }

  lemma ReportsExactlyWhen(s: S.Store, id: Id, task: TaskRef, p: Progress, reading: int)
    requires RowsOk(s.jobs) && AllTimed(s.jobs)
    ensures var r, now := S.TransitionReport(s, id, task, p, reading), Later(s.clock, reading);
            && (r.Ok? <==> MayReport(s, id, task, p, reading))
            && (r.Ok? ==> OnlyRow(s, r.value, id) && r.value.jobs[id] == Progressed(s.jobs[id], p, now))
  {
    StoreTime(s.clock, reading);
    if id in s.jobs {
      assert RowOk(s.jobs[id]) && Timed(s.jobs[id]);
    }
  }

  /** A deletion is recorded exactly for a task that a terminal row of the same generation owns. */
  lemma DeletesExactlyWhen(s: S.Store, id: Id, task: TaskRef, outcome: Code)
    ensures var r := S.RecordDeletion(s, id, task, outcome);
            && (r.Ok? <==> && id in s.jobs && Terminal(s.jobs[id].state) && task.id in s.jobs[id].taskIds
                           && task.generation == s.jobs[id].key.generation)
            && (r.Ok? ==> OnlyRow(s, r.value, id) && r.value.jobs[id] == Deleted(s.jobs[id], task.id, outcome))
  {
  }

  /** A request takes its token exactly when the bucket holds one, and leaves exactly one less. */
  lemma RequestsExactlyWhen(cfg: S.Config, s: S.Store, reading: int)
    requires BucketsOk(cfg, s)
    ensures var t, now := TakeRequestStep(cfg, s, reading), Later(s.clock, reading);
            if InStep(s.clock, reading) && TB.Holds(S.Stored(s.buckets, S.Requests), cfg.requestRate, now)
            then && t.clock == Some(now) && S.Requests in t.buckets
                 && TB.Granted(t.buckets[S.Requests])
                    == TB.TakeToken(S.Stored(s.buckets, S.Requests), cfg.requestRate, now)
                 && t == s.(clock := Some(now), buckets := s.buckets[S.Requests := t.buckets[S.Requests]])
            else t == s
  {
    StoreTime(s.clock, reading);
    if InStep(s.clock, reading) {
      var now := Later(s.clock, reading);
      assert BucketOk(cfg, s, S.Requests);
      TB.GrantedIffHolds(S.Stored(s.buckets, S.Requests), cfg.requestRate, now);
      TakeNext(cfg, s.buckets, S.Requests, [], now);
      assert [S.Requests] + [] == [S.Requests];
    }
  }

  /** Retention takes the payload of every row past submission, and deletes exactly the rows that ended a day ago and
      left nothing remote. */
  lemma RetainsExactlyWhen(s: S.Store, id: Id, now: int)
    requires RowsOk(s.jobs) && id in s.jobs
    ensures var t, j := S.Retain(s, id, now), s.jobs[id];
            && (id !in t.jobs <==> && Terminal(j.state) && now >= j.terminalAt.value + 24 * HOUR
                                   && j.cleanup.NotSubmitted? && !j.unknownDebt)
            && (id in t.blobs <==> id in s.blobs && (NeedsPayload(j.state) || j.state.Staging?))
            && (id in t.jobs ==> OnlyRow(s, t, id)) && (id !in t.jobs ==> t.jobs == s.jobs - {id})
  {
    assert RowOk(s.jobs[id]);
    RetentionOutcome(s.jobs[id], now);
  }
}
