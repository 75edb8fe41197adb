/** What each update makes of a row, told from the update's cause: which state results, and what it stores. */
module CapeOutcomes {
  import opened Options
  import opened CapeJob
  import S = CapeStore

  // ---- the outcome of a submission ----

  /** The transport reported exactly one task, in range and of this generation. */
  predicate OneTask(s: Submission, generation: string) {
    |s.tasks| == 1 && 1 <= s.tasks[0].id <= 0x7fff_ffff && s.tasks[0].generation == generation
  }

  lemma {:induction false} SingleTask(s: Submission, generation: string)
    ensures !AnyInvalid(s.tasks, generation, |s.tasks|) && |TaskIds(s.tasks, generation, |s.tasks|)| == 1 <==>
            OneTask(s, generation)
    ensures OneTask(s, generation) ==> TaskIds(s.tasks, generation, 1) == [s.tasks[0].id]
    ensures s.tasks == [] ==> !AnyInvalid(s.tasks, generation, 0) && TaskIds(s.tasks, generation, 0) == []
  {
    ValidMeansAll(s.tasks, generation, |s.tasks|);
    if |s.tasks| == 1 {
      assert TaskIds(s.tasks, generation, 0) == [] && !AnyInvalid(s.tasks, generation, 0);
    }
  }

  /** A success without any doubt. */
  predicate Clean(j: Job, s: Submission, outcome: Code) {
    outcome.NoCode? && !s.noBytesSent && !s.unknownDebt && OneTask(s, j.key.generation)
  }

  /** A failure that proves that nothing was sent. */
  predicate Unsent(s: Submission, outcome: Code) {
    !outcome.NoCode? && s.noBytesSent && !s.unknownDebt && s.tasks == []
  }

  /** The remote task is known: it will be polled, and deleted in the end. */
  predicate Owned(k: Job, task: int) {
    k.taskIds == [task] && !k.unknownDebt && k.cleanup.DeletePending? && k.barrier
  }

  /** Some remote task may exist that nobody knows. */
  predicate Doubtful(k: Job) {
    k.unknownDebt && k.cleanup.DeleteUnknown? && k.barrier
  }

  /** The row may be submitted again, five seconds to five minutes from now. */
  predicate Retried(k: Job, backoff: int, now: int) {
    && Untouched(k) && k.polling.nextAttempt.Some?
    && now + 5 * SECOND <= k.polling.nextAttempt.value <= now + 300 * SECOND
    && (5 * SECOND <= backoff <= 300 * SECOND ==> k.polling.nextAttempt.value == now + backoff)
  }

  function LaterOf(raw: int, at: Option<int>): int {
    if at.Some? && raw < at.value then at.value else raw
  }

  /** Which of the four states a row gets that was still waiting for its outcome. */
  lemma StateOfOutcome(j: Job, s: Submission, outcome: Code, backoff: int, now: int, raw: int)
    requires RowOk(j) && Recordable(j, j.submissionVersion) && !Terminal(j.state)
    ensures var state := Recorded(j, s, outcome, backoff, now, raw).state;
            && (state.Failed? <==> |s.tasks| > 1)
            && (state.RemotePending? <==> Clean(j, s, outcome))
            && (state.Queued? <==> Unsent(s, outcome))
            && (state.SubmitUncertain? <==> |s.tasks| <= 1 && !Clean(j, s, outcome) && !Unsent(s, outcome))
  {
    SingleTask(s, j.key.generation);
    assert j.taskIds + TaskIds(s.tasks, j.key.generation, |s.tasks|) == TaskIds(s.tasks, j.key.generation, |s.tasks|);
  }

  /** The outcome of a row that was still waiting for it: several tasks fail it; a clean success leaves it with its one
      task; a proof that nothing was sent queues it again; anything else is uncertain. */
  lemma LiveOutcome(j: Job, s: Submission, outcome: Code, backoff: int, now: int, raw: int)
    requires RowOk(j) && Recordable(j, j.submissionVersion) && !Terminal(j.state)
    ensures var k := Recorded(j, s, outcome, backoff, now, raw);
            if |s.tasks| > 1 then
              k.state.Failed? && k.reason.Protocol? && Doubtful(k) && k.terminalAt == Some(LaterOf(raw, j.attemptAt))
            else if Clean(j, s, outcome) then k.state.RemotePending? && k.reason.NoCode? && Owned(k, s.tasks[0].id)
            else if Unsent(s, outcome) then k.state.Queued? && k.reason == outcome && Retried(k, backoff, now)
            else
              k.state.SubmitUncertain? && Doubtful(k) && k.reason == if outcome.NoCode? then Protocol else outcome
  {
    SingleTask(s, j.key.generation);
    RecordedRow(j, s, outcome, backoff, now, raw);
    var ids := TaskIds(s.tasks, j.key.generation, |s.tasks|);
    assert j.taskIds + ids == ids;
  }

  /** A late outcome leaves a terminal row as it is, but for what it says about remote tasks. */
  lemma LateOutcome(j: Job, s: Submission, outcome: Code, backoff: int, now: int, raw: int)
    requires RowOk(j) && Recordable(j, j.submissionVersion) && Terminal(j.state)
    ensures var k := Recorded(j, s, outcome, backoff, now, raw);
            && k.state == j.state && k.reason == j.reason && k.terminalAt == j.terminalAt
            && if s.noBytesSent && !s.unknownDebt && s.tasks == [] then Untouched(k)
               else if outcome.NoCode? && !s.unknownDebt && OneTask(s, j.key.generation) then Owned(k, s.tasks[0].id)
               else Doubtful(k)
  {
    SingleTask(s, j.key.generation);
    RecordedRow(j, s, outcome, backoff, now, raw);
    var ids := TaskIds(s.tasks, j.key.generation, |s.tasks|);
    assert j.taskIds + ids == ids;
  }

  // ---- polls and reports ----

  /** Only progress, wake-up time and version differ. */
  predicate SameOwner(j: Job, k: Job) {
    && k.key == j.key && k.due == j.due && k.taskIds == j.taskIds && k.acked == j.acked && k.cleanup == j.cleanup
    && k.barrier == j.barrier && k.unknownDebt == j.unknownDebt && k.recorded == j.recorded
    && k.version == j.version + 1 && k.polling == j.polling.(wakeAt := None)
  }

  /** A reported task is fetched, an active one is polled again, a failed one fails the job; a mapped report completes
      it with its result, an unmapped one fails it, and an error leaves it to be fetched again. */
  lemma ProgressOutcome(j: Job, p: Progress, now: int)
    requires RowOk(j) && ProgressFits(j.state, p)
    ensures var k := Progressed(j, p, now);
            && SameOwner(j, k)
            && match p
               case Reported => k.state.Fetching? && k.terminalAt.None?
               case StillActive => k.state.RemotePending? && k.terminalAt.None?
               case RemoteFailed => k.state.Failed? && k.reason.Remote? && k.result.None? && k.terminalAt == Some(now)
               case Mapped(result) => k.state.Completed? && k.result == Some(result) && k.terminalAt == Some(now)
               case Unmapped => k.state.Failed? && k.reason.Protocol? && k.result.None? && k.terminalAt == Some(now)
               case ReportError(code) => k.state.Fetching? && k.reason == code && k.terminalAt.None?
  {
  }

  // ---- cancellation, expiry, deletion, retention, restart ----

  /** A row ends with its first terminal time and without a result; an attempt in flight leaves a doubt. */
  lemma EndOutcome(j: Job, state: State, reason: Code, now: int)
    requires RowOk(j) && !j.state.Staging? && (state.Cancelled? || (state.Expired? && !Terminal(j.state)))
    ensures var k := Terminated(j, state, reason, now);
            && k.state == state && k.reason == reason && k.result.None? && k.taskIds == j.taskIds
            && k.terminalAt == Some(if Terminal(j.state) then j.terminalAt.value else now)
            && (state.Cancelled? ==> k.suppressed)
            && (j.state.Submitting? || j.state.SubmitUncertain? ==> Doubtful(k))
            && (j.state.Queued? ==> Untouched(k))
            && (j.state.RemotePending? || j.state.Fetching? ==> Owned(k, j.taskIds[0]))
  {
  }

  /** An acknowledged deletion is kept, once; the row is acknowledged exactly when every task is and nothing else is
      owed; a deletion that failed says so. */
  lemma DeletionOutcome(j: Job, task: int, outcome: Code)
    requires RowOk(j) && AckOk(j) && Terminal(j.state) && task in j.taskIds
    ensures var k := Deleted(j, task, outcome);
            && (forall t :: t in k.acked <==> t in j.acked || (outcome.NoCode? && t == task))
            && (k.cleanup.DeleteAcknowledged? <==> outcome.NoCode? && !j.unknownDebt && |k.acked| == |k.taskIds|)
            && (!outcome.NoCode? || j.unknownDebt ==> k.cleanup.DeleteUnknown?)
            && k.state == j.state && k.taskIds == j.taskIds && k.version == j.version + 1
  {
  }

  /** Retention deletes exactly the rows that ended a day ago and left nothing remote; of the others that ended a day
      ago it keeps the barrier alone. */
  lemma RetentionOutcome(j: Job, now: int)
    requires RowOk(j)
    ensures var k := S.Aged(j, now);
            var over := Terminal(j.state) && now >= j.terminalAt.value + 24 * HOUR;
            && (k.None? <==> over && j.cleanup.NotSubmitted? && !j.unknownDebt)
            && (!over ==> k == Some(j))
            && (over && k.Some? ==>
                  && k.value.result.None? && k.value.suppressed && k.value.barrier && k.value.staticVerdict == ""
                  && k.value.state == j.state && k.value.key == j.key && k.value.taskIds == j.taskIds)
  {
  }

  /** A submission that a restart interrupted is uncertain, and may have left a task; a restart changes no other row. */
  lemma RestartOutcome(j: Job)
    requires RowOk(j)
    ensures var k := S.Reconciled(j);
            if j.state.Submitting? then
              k.state.SubmitUncertain? && Doubtful(k) && k.submissionVersion == j.submissionVersion && !k.recorded
            else k == j
  {
  }
}
