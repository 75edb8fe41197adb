/** One durable CAPE job row, and every update the store makes to it. Times are nanoseconds; None is the zero time. */
module CapeJob {
  import opened Options

  datatype State = Staging | Queued | Submitting | SubmitUncertain | RemotePending | Fetching
                 | Completed | Failed | Expired | Cancelled

  datatype Cleanup = NotSubmitted | DeletePending | DeleteUnknown | DeleteAcknowledged | PurgeConfirmed

  /** Local outcome codes; `NoCode` is the empty one. */
  datatype Code = NoCode | Invalid | Closed | Credential | Unauthorized | Throttled | Transport | Deadline
                | Protocol | TooLarge | Remote | NotFound

  /** The identity under which submissions are deduplicated; the digest is empty until publication. */
  datatype Key = Key(tenant: string, digest: string, generation: string, submissionPolicy: string, resultPolicy: string)

  datatype Deadlines = Deadlines(created: int, ingress: int, queue: int, analysis: int)

  datatype Polling = Polling(nextAttempt: Option<int>, retryAfterUntil: Option<int>, wakeAt: Option<int>,
                             readAttempts: nat)

  datatype Job = Job(key: Key, state: State, version: int, reserved: int, payload: int, due: Deadlines,
                     terminalAt: Option<int>, attemptAt: Option<int>, attempts: int,
                     submissionVersion: int, recorded: bool, taskIds: seq<int>, acked: seq<int>,
                     cleanup: Cleanup, unknownDebt: bool, barrier: bool, suppressed: bool, reason: Code,
                     result: Option<string>, staticVerdict: string, polling: Polling, cleanupExceeded: bool)

  const MAX_ATTACHMENT: int := 10_485_760
  const METADATA: int := 4096
  const RESULT: int := 16_384
  const MAX_TASKS := 16
  const MAX_TASK_ID: int := 0x7fff_ffff

  const SECOND: int := 1_000_000_000
  const HOUR: int := 3_600_000_000_000

  predicate Terminal(s: State) {
    s.Completed? || s.Failed? || s.Expired? || s.Cancelled?
  }

  predicate Before(now: int, t: Option<int>) {
    t.Some? && now < t.value
  }

  // ---- updates ----

  function Reserved(key: Key, verdict: string, now: int, maxAttachment: int): Job {
    Job(key.(digest := ""), Staging, 1, maxAttachment + METADATA + RESULT, 0,
        Deadlines(now, now + 30 * SECOND, now + HOUR, now + 24 * HOUR),
        None, None, 0, 0, false, [], [], NotSubmitted, false, false, false, NoCode, None, verdict,
        Polling(None, None, None, 0), false)
  }

  /** Publication of a staged row. */
  function Published(j: Job, size: int, digest: string, verdict: string): Job {
    j.(state := Queued, version := j.version + 1, payload := size, reserved := size + METADATA + RESULT,
       key := j.key.(digest := digest), staticVerdict := verdict)
  }

  /** Ownership of one attempt, committed before any byte is sent. */
  function Begun(j: Job, now: int): Job {
    j.(state := Submitting, version := j.version + 1, submissionVersion := j.version + 1, recorded := false,
       attempts := j.attempts + 1, attemptAt := Some(now), polling := j.polling.(nextAttempt := None))
  }

  function Terminated(j: Job, state: State, reason: Code, now: int): Job {
    var inFlight := j.state.Submitting? || j.state.SubmitUncertain?;
    j.(terminalAt := if j.terminalAt.None? then Some(now) else j.terminalAt,
       unknownDebt := j.unknownDebt || inFlight,
       barrier := j.barrier || inFlight,
       cleanup := if inFlight then DeleteUnknown else j.cleanup,
       state := state, reason := reason, result := None,
       suppressed := j.suppressed || state.Cancelled?)
  }

  datatype TaskRef = TaskRef(id: int, generation: string)

  /** What the transport reports about one submission attempt. */
  datatype Submission = Submission(tasks: seq<TaskRef>, noBytesSent: bool, unknownDebt: bool)

  predicate BadTask(t: TaskRef, generation: string, seen: seq<int>) {
    t.id < 1 || t.id > MAX_TASK_ID || t.generation != generation || t.id in seen
  }

  /** The valid task ids among the first sixteen, without repeats. */
  function TaskIds(tasks: seq<TaskRef>, generation: string, n: nat): seq<int>
    requires n <= |tasks|
  {
    if n == 0 then [] else
      var ids := TaskIds(tasks, generation, n - 1);
      if n > MAX_TASKS || BadTask(tasks[n - 1], generation, ids) then ids else ids + [tasks[n - 1].id]
  }

  /** Some task was refused: too many, out of range, of another generation, or repeated. */
  function AnyInvalid(tasks: seq<TaskRef>, generation: string, n: nat): bool
    requires n <= |tasks|
  {
    n > 0 && (n > MAX_TASKS || AnyInvalid(tasks, generation, n - 1)
              || BadTask(tasks[n - 1], generation, TaskIds(tasks, generation, n - 1)))
  }

  /** Some task among the first sixteen of the first `n` is in range, of this generation, and has this id. */
  ghost predicate Offered(tasks: seq<TaskRef>, generation: string, n: nat, id: int)
    requires n <= |tasks|
  {
    1 <= id <= MAX_TASK_ID && exists i :: 0 <= i < n && i < MAX_TASKS && tasks[i] == TaskRef(id, generation)
  }

  /** Every valid id is kept, and no other. */
  lemma {:induction false} TaskIdsAreOffered(tasks: seq<TaskRef>, generation: string, n: nat, id: int)
    requires n <= |tasks|
    ensures id in TaskIds(tasks, generation, n) <==> Offered(tasks, generation, n, id)
  {
    if n > 0 {
      TaskIdsAreOffered(tasks, generation, n - 1, id);
      if Offered(tasks, generation, n, id) && !Offered(tasks, generation, n - 1, id) {
        assert tasks[n - 1] == TaskRef(id, generation);
      }
    }
  }

  /** Nothing was refused exactly when every task is among the first sixteen, valid, and unlike those before it. */
  lemma {:induction false} ValidMeansAll(tasks: seq<TaskRef>, generation: string, n: nat)
    requires n <= |tasks|
    ensures !AnyInvalid(tasks, generation, n) <==>
            n <= MAX_TASKS && |TaskIds(tasks, generation, n)| == n
    ensures |TaskIds(tasks, generation, n)| <= n
  {
    if n > 0 {
      ValidMeansAll(tasks, generation, n - 1);
    }
  }

  /** Keeps each valid id among the first sixteen tasks once, and tells whether any task was refused. */
  method AppendTasks(tasks: seq<TaskRef>, generation: string) returns (ids: seq<int>, invalid: bool)
    ensures ids == TaskIds(tasks, generation, |tasks|) && invalid == AnyInvalid(tasks, generation, |tasks|)
    ensures Distinct(ids) && forall id :: id in ids <==> Offered(tasks, generation, |tasks|, id)
    ensures !invalid <==> |tasks| <= MAX_TASKS && |ids| == |tasks|
  {
    ids, invalid := [], false;
    for i := 0 to |tasks|
      invariant ids == TaskIds(tasks, generation, i) && invalid == AnyInvalid(tasks, generation, i)
    {
      if i >= MAX_TASKS || BadTask(tasks[i], generation, ids) {
        invalid := true;
      } else {
        ids := ids + [tasks[i].id];
      }
    }
    TaskIdsDistinct(tasks, generation, |tasks|);
    ValidMeansAll(tasks, generation, |tasks|);
    forall id ensures id in ids <==> Offered(tasks, generation, |tasks|, id) {
      TaskIdsAreOffered(tasks, generation, |tasks|, id);
    }
  }

  function Clamp(x: int, lo: int, hi: int): int {
    if x > hi then hi else if x < lo then lo else x
  }

  /** What every recorded outcome sets. */
  function RecordedBase(j: Job, s: Submission, outcome: Code): Job {
    j.(version := j.version + 1, recorded := true, reason := outcome,
       taskIds := j.taskIds + TaskIds(s.tasks, j.key.generation, |s.tasks|),
       unknownDebt := s.unknownDebt || AnyInvalid(s.tasks, j.key.generation, |s.tasks|), barrier := true)
  }

  /** The row after the outcome of its open attempt is recorded. `now` is store time, `raw` the unclamped clock. */
  function Recorded(j: Job, s: Submission, outcome: Code, backoff: int, now: int, raw: int): Job {
    var invalid := AnyInvalid(s.tasks, j.key.generation, |s.tasks|);
    if Terminal(j.state) then RecordedTerminal(RecordedBase(j, s, outcome), j, s, outcome, invalid)
    else RecordedLive(RecordedBase(j, s, outcome), j, s, outcome, invalid, backoff, now, raw)
  }

  function RecordedLive(base: Job, j: Job, s: Submission, outcome: Code, invalid: bool, backoff: int, now: int,
                        raw: int): Job {
    if |s.tasks| > 1 then
      base.(state := Failed, unknownDebt := true, reason := Protocol, cleanup := DeleteUnknown,
            terminalAt := Some(if j.attemptAt.Some? && raw < j.attemptAt.value then j.attemptAt.value else raw))
    else if outcome.NoCode? && !invalid && !s.unknownDebt && !s.noBytesSent && |base.taskIds| == 1 then
      base.(state := RemotePending, cleanup := DeletePending)
    else if !outcome.NoCode? && s.noBytesSent && !invalid && !s.unknownDebt && s.tasks == [] then
      base.(state := Queued, cleanup := NotSubmitted, barrier := false,
            polling := base.polling.(nextAttempt := Some(now + Clamp(backoff, 5 * SECOND, 300 * SECOND))))
    else
      base.(state := SubmitUncertain, unknownDebt := true, cleanup := DeleteUnknown,
            reason := if outcome.NoCode? then Protocol else outcome)
  }

  /** A late outcome never revives a terminal row; only a proof that nothing was sent clears its debt. */
  function RecordedTerminal(base: Job, j: Job, s: Submission, outcome: Code, invalid: bool): Job {
    var noSend := s.noBytesSent && s.tasks == [] && !invalid;
    var debt := base.unknownDebt || (!noSend && (!outcome.NoCode? || |base.taskIds| != 1));
    if noSend && !s.unknownDebt then
      base.(reason := j.reason, unknownDebt := false, barrier := false, cleanup := NotSubmitted)
    else
      base.(reason := j.reason, unknownDebt := debt, cleanup := if debt then DeleteUnknown else DeletePending)
  }

  /** The packet proves that this attempt sent nothing. */
  predicate ProvesUnsent(j: Job, s: Submission, outcome: Code) {
    s.noBytesSent && s.tasks == [] && !s.unknownDebt && (Terminal(j.state) || !outcome.NoCode?)
  }

  predicate Recordable(j: Job, version: int) {
    && version >= 1 && !j.recorded
    && (j.state.Submitting? || Terminal(j.state) || j.state.SubmitUncertain?)
    && (j.submissionVersion == version || (j.submissionVersion == 0 && j.state.Submitting? && j.version == version))
  }

  /** A restart cannot know whether a submitting row reached the network. */
  function Recovered(j: Job): Job {
    j.(state := SubmitUncertain, version := j.version + 1, unknownDebt := true, barrier := true,
       cleanup := DeleteUnknown, reason := Transport)
  }

  function Deleted(j: Job, task: int, outcome: Code): Job {
    var acked := if outcome.NoCode? && task !in j.acked then j.acked + [task] else j.acked;
    var cleanup :=
      if !outcome.NoCode? || j.unknownDebt then DeleteUnknown
      else if |acked| == |j.taskIds| then DeleteAcknowledged else DeletePending;
    j.(acked := acked, cleanup := cleanup, barrier := true, version := j.version + 1)
  }

  /** Terminal retention has passed: the tombstone keeps only its barrier. */
  function Minimized(j: Job): Job {
    j.(result := None, suppressed := true, barrier := true, staticVerdict := "")
  }

  predicate SingleOwnedTask(j: Job, task: TaskRef) {
    |j.taskIds| == 1 && j.taskIds[0] == task.id && j.key.generation == task.generation && !j.unknownDebt
  }

  /** What a status poll or a report found; a status no one knows is a protocol error and no step. */
  datatype Progress = Reported | StillActive | RemoteFailed | Mapped(result: string) | Unmapped
                    | ReportError(code: Code)

  function Progressed(j: Job, p: Progress, now: int): Job {
    var changed := match p
      case Reported => j.(state := Fetching)
      case StillActive => j
      case RemoteFailed => Terminated(j, Failed, Remote, now)
      case Mapped(result) => Terminated(j, Completed, NoCode, now).(result := Some(result))
      case Unmapped => Terminated(j, Failed, Protocol, now)
      case ReportError(code) => j.(reason := code);
    changed.(polling := changed.polling.(wakeAt := None), version := j.version + 1)
  }

  predicate ProgressFits(s: State, p: Progress) {
    if s.RemotePending? then p.Reported? || p.StillActive? || p.RemoteFailed?
    else s.Fetching? && (p.Mapped? || p.Unmapped? || p.ReportError?)
  }

  /** A row that admission must reuse instead of submitting the same content again. */
  predicate Reusable(j: Job, now: int) {
    || j.barrier
    || j.state.Queued? || j.state.Submitting? || j.state.SubmitUncertain? || j.state.RemotePending? || j.state.Fetching?
    || (j.state.Completed? && !j.suppressed && j.terminalAt.Some? && now < j.terminalAt.value + 24 * HOUR)
  }

  // ---- what every reachable row satisfies ----

  /** The row has an attempt that is not proved unsent. */
  predicate Owes(j: Job) {
    || j.state.Submitting? || j.state.SubmitUncertain? || j.state.RemotePending? || j.state.Fetching?
    || (Terminal(j.state) && j.barrier)
  }

  predicate Blocking(j: Job) {
    Owes(j) || j.state.Queued?
  }

  predicate NeedsPayload(s: State) {
    s.Queued? || s.Submitting? || s.SubmitUncertain?
  }

  /** No attempt ever left a trace: nothing was sent, so nothing is owed. */
  predicate Untouched(j: Job) {
    !j.barrier && j.cleanup.NotSubmitted? && !j.unknownDebt && j.taskIds == [] && j.result.None?
  }

  ghost predicate RowOk(j: Job) {
    && 1 <= j.version && 0 <= j.submissionVersion <= j.version
    && (!j.recorded ==> j.taskIds == [])
    && !j.cleanup.PurgeConfirmed?
    && (Terminal(j.state) <==> j.terminalAt.Some?)
    && (j.result.Some? ==> j.state.Completed? && !j.suppressed)
    && (j.suppressed ==> Terminal(j.state)) && (j.state.Cancelled? ==> j.suppressed)
    && match j.state
       case Staging => Untouched(j) && j.submissionVersion == 0 && !j.recorded
       case Queued => Untouched(j) && (j.submissionVersion == 0 || j.recorded)
       case Submitting => Untouched(j) && j.submissionVersion >= 1 && !j.recorded
       case SubmitUncertain => j.barrier && j.unknownDebt && j.cleanup.DeleteUnknown? && j.submissionVersion >= 1
       case RemotePending => Remotely(j) && j.cleanup.DeletePending?
       case Fetching => Remotely(j) && j.cleanup.DeletePending?
       case Completed => Remotely(j) && !j.cleanup.NotSubmitted?
       case _ =>
         if j.barrier then j.submissionVersion >= 1 && !j.cleanup.NotSubmitted?
         else Untouched(j) && (j.submissionVersion == 0 || j.recorded)
  }

  predicate Remotely(j: Job) {
    j.submissionVersion >= 1 && j.recorded && j.barrier && |j.taskIds| == 1 && !j.unknownDebt
  }

  /** Admission reuses exactly the blocking rows: the retention clause for completed rows never decides. */
  lemma ReusableIsBlocking(j: Job, now: int)
    requires RowOk(j)
    ensures Reusable(j, now) <==> Blocking(j)
  {
  }

  /** What may happen to a row without touching its attempt: nothing is forgotten and terminal stays terminal. */
  ghost predicate Quiet(j: Job, k: Job) {
    && RowOk(k) && k.version > j.version && k.key == j.key && k.reserved == j.reserved && k.payload == j.payload
    && k.due == j.due && k.attemptAt == j.attemptAt
    && k.submissionVersion == j.submissionVersion && k.recorded == j.recorded && Owes(k) == Owes(j)
    && (Blocking(k) ==> Blocking(j)) && (NeedsPayload(k.state) ==> NeedsPayload(j.state))
    && (j.state.Staging? <==> k.state.Staging?)
    && Forward(j, k) && (AckOk(j) ==> AckOk(k))
  }

  ghost predicate Distinct(s: seq<int>) {
    forall i, k :: 0 <= i < k < |s| ==> s[i] != s[k]
  }

  /** Deletions are acknowledged only for owned tasks, once each; `DeleteAcknowledged` says all of them, with no
      debt. */
  ghost predicate AckOk(j: Job) {
    && Distinct(j.taskIds) && Distinct(j.acked) && (forall i :: 0 <= i < |j.acked| ==> j.acked[i] in j.taskIds)
    && (j.taskIds == [] ==> j.acked == [])
    && (j.cleanup.DeleteAcknowledged? ==> |j.acked| == |j.taskIds| && !j.unknownDebt)
  }

  lemma {:induction false} TaskIdsDistinct(tasks: seq<TaskRef>, generation: string, n: nat)
    requires n <= |tasks|
    ensures Distinct(TaskIds(tasks, generation, n))
  {
    if n > 0 {
      TaskIdsDistinct(tasks, generation, n - 1);
    }
  }

  /** A terminal row stays terminal; it can only become cancelled, and keeps its first terminal time and its task
      ids. */
  predicate Forward(j: Job, k: Job) {
    && k.version >= j.version && j.taskIds <= k.taskIds
    && (Terminal(j.state) ==> (k.state == j.state || k.state.Cancelled?) && k.terminalAt == j.terminalAt)
  }

  lemma TerminatedQuiet(j: Job, state: State, reason: Code, now: int)
    requires RowOk(j) && !j.state.Staging? && !j.state.Cancelled?
    requires state.Cancelled? || (state.Expired? && !Terminal(j.state))
    ensures var k := Terminated(j, state, reason, now); Quiet(j, k.(version := j.version + 1))
  {
  }

  lemma ProgressedQuiet(j: Job, p: Progress, now: int)
    requires RowOk(j) && ProgressFits(j.state, p)
    ensures Quiet(j, Progressed(j, p, now))
  {
  }

  lemma RecoveredQuiet(j: Job)
    requires RowOk(j) && j.state.Submitting?
    ensures Quiet(j, Recovered(j))
  {
  }

  lemma DeletedQuiet(j: Job, task: int, outcome: Code)
    requires RowOk(j) && Terminal(j.state) && task in j.taskIds
    ensures Quiet(j, Deleted(j, task, outcome))
  {
  }

  lemma MinimizedQuiet(j: Job)
    requires RowOk(j) && Terminal(j.state)
    requires j.unknownDebt || !(j.cleanup.NotSubmitted? || j.cleanup.PurgeConfirmed?)
    ensures Quiet(j, Minimized(j).(version := j.version + 1))
  {
  }

  /** Updates of polling times and of the cleanup flag alone. */
  lemma PollingQuiet(j: Job, polling: Polling, exceeded: bool)
    requires RowOk(j)
    ensures Quiet(j, j.(polling := polling, cleanupExceeded := exceeded, version := j.version + 1))
  {
  }

  /** A recorded outcome closes the attempt, and the row still owes exactly when it was not proved unsent. */
  ghost predicate Closes(j: Job, k: Job, unsent: bool) {
    ClosesAttempt(j, k, unsent) && (AckOk(j) ==> AckOk(k))
  }

  ghost predicate ClosesAttempt(j: Job, k: Job, unsent: bool) {
    && RowOk(k) && k.version == j.version + 1 && k.key == j.key && k.reserved == j.reserved
    && k.payload == j.payload && k.due == j.due && k.attemptAt == j.attemptAt
    && k.submissionVersion == j.submissionVersion && k.recorded
    && (Owes(k) <==> !unsent) && Forward(j, k) && Owes(j)
    && (NeedsPayload(k.state) ==> NeedsPayload(j.state)) && !k.state.Staging?
  }

  lemma NoTasks(generation: string)
    ensures TaskIds([], generation, 0) == [] && !AnyInvalid([], generation, 0)
  {
  }

  /** The two rows have the same tasks, and the second claims no complete acknowledgement. */
  ghost predicate SameTasks(a: Job, b: Job) {
    b.taskIds == a.taskIds && b.acked == a.acked && !b.cleanup.DeleteAcknowledged?
  }

  lemma LiveTasks(base: Job, j: Job, s: Submission, outcome: Code, invalid: bool, backoff: int, now: int, raw: int)
    ensures SameTasks(base, RecordedLive(base, j, s, outcome, invalid, backoff, now, raw))
  {
    if |s.tasks| > 1 {
    } else if outcome.NoCode? && !invalid && !s.unknownDebt && !s.noBytesSent && |base.taskIds| == 1 {
    } else if !outcome.NoCode? && s.noBytesSent && !invalid && !s.unknownDebt && s.tasks == [] {
    } else {
    }
  }

  lemma LateTasks(base: Job, j: Job, s: Submission, outcome: Code, invalid: bool)
    ensures SameTasks(base, RecordedTerminal(base, j, s, outcome, invalid))
  {
  }

  /** A record stores the new task ids and acknowledges none of them. */
  lemma RecordedTasks(j: Job, s: Submission, outcome: Code, backoff: int, now: int, raw: int)
    ensures var k := Recorded(j, s, outcome, backoff, now, raw);
            && k.taskIds == j.taskIds + TaskIds(s.tasks, j.key.generation, |s.tasks|)
            && k.acked == j.acked && !k.cleanup.DeleteAcknowledged?
  {
    var base := RecordedBase(j, s, outcome);
    var invalid := AnyInvalid(s.tasks, j.key.generation, |s.tasks|);
    LateTasks(base, j, s, outcome, invalid);
    LiveTasks(base, j, s, outcome, invalid, backoff, now, raw);
  }

  lemma FreshAcks(k: Job, ids: seq<int>)
    requires Distinct(ids) && k.taskIds == [] + ids && k.acked == [] && !k.cleanup.DeleteAcknowledged?
    ensures AckOk(k)
  {
    assert [] + ids == ids;
  }

  lemma RecordedAcks(j: Job, s: Submission, outcome: Code, backoff: int, now: int, raw: int)
    requires j.taskIds == [] && AckOk(j)
    ensures AckOk(Recorded(j, s, outcome, backoff, now, raw))
  {
    TaskIdsDistinct(s.tasks, j.key.generation, |s.tasks|);
    RecordedTasks(j, s, outcome, backoff, now, raw);
    FreshAcks(Recorded(j, s, outcome, backoff, now, raw), TaskIds(s.tasks, j.key.generation, |s.tasks|));
  }

  lemma LateRow(j: Job, s: Submission, outcome: Code, backoff: int, now: int, raw: int)
    requires RowOk(j) && Recordable(j, j.submissionVersion) && Terminal(j.state)
    ensures ClosesAttempt(j, Recorded(j, s, outcome, backoff, now, raw), ProvesUnsent(j, s, outcome))
  {
    NoTasks(j.key.generation);
  }

  lemma LiveRow(j: Job, s: Submission, outcome: Code, backoff: int, now: int, raw: int)
    requires RowOk(j) && Recordable(j, j.submissionVersion) && !Terminal(j.state)
    ensures ClosesAttempt(j, Recorded(j, s, outcome, backoff, now, raw), ProvesUnsent(j, s, outcome))
  {
    NoTasks(j.key.generation);
  }

  lemma RecordedRow(j: Job, s: Submission, outcome: Code, backoff: int, now: int, raw: int)
    requires RowOk(j) && Recordable(j, j.submissionVersion)
    ensures Closes(j, Recorded(j, s, outcome, backoff, now, raw), ProvesUnsent(j, s, outcome))
  {
    if Terminal(j.state) {
      LateRow(j, s, outcome, backoff, now, raw);
    } else {
      LiveRow(j, s, outcome, backoff, now, raw);
    }
    if AckOk(j) {
      RecordedAcks(j, s, outcome, backoff, now, raw);
    }
  }
}
