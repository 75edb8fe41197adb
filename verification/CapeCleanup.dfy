/**
 * Remote cleanup over every run: an acknowledged row has had every one of its tasks acknowledged, and owes nothing
 * else.
 */
module CapeCleanup {
  import opened Options
  import opened Sets
  import opened CapeJob
  import opened CapeProtocol
  import opened CapeSteps
  import opened CapeRuns
  import S = CapeStore

  ghost predicate AcksOk(jobs: map<Id, Job>) {
    forall id :: id in jobs ==> AckOk(jobs[id])
  }

  lemma ChangeAcks(cfg: S.Config, w: World, v: World, c: Change)
    requires AcksOk(w.store.jobs) && TableFollows(cfg, w, v.store.jobs, c)
    ensures AcksOk(v.store.jobs)
  {
  }

  lemma {:induction false} RunAcks(cfg: S.Config, w: World, steps: seq<Step>)
    requires cfg.Valid() && Sound(cfg, w) && AcksOk(w.store.jobs)
    ensures AcksOk(Run(cfg, w, steps).store.jobs)
    decreases |steps|
  {
    if steps != [] {
      var c := StepSound(cfg, w, steps[0]);
      ChangeAcks(cfg, w, Apply(cfg, w, steps[0]), c);
      RunAcks(cfg, Apply(cfg, w, steps[0]), steps[1..]);
    }
  }

  function Elements(s: seq<int>): set<int> {
    set x | x in s
  }

  lemma {:induction false} DistinctSize(s: seq<int>)
    requires Distinct(s)
    ensures |Elements(s)| == |s|
  {
    if s != [] {
      var n := |s| - 1;
      DistinctSize(s[..n]);
      assert s[n] !in s[..n];
      assert Elements(s) == Elements(s[..n]) + {s[n]};
    }
  }

  /** As many distinct acknowledgements as distinct tasks leave no task out. */
  lemma AllAcknowledged(j: Job, task: int)
    requires AckOk(j) && |j.acked| == |j.taskIds| && task in j.taskIds
    ensures task in j.acked
  {
    DistinctSize(j.acked);
    DistinctSize(j.taskIds);
    if task !in j.acked {
      assert Elements(j.acked) <= Elements(j.taskIds) - {task};
      SubsetSize(Elements(j.acked), Elements(j.taskIds) - {task});
      assert false;
    }
  }

  /** In every reachable state, a row marked acknowledged owes no unknown task, and each of its tasks was
      acknowledged. */
  lemma AcknowledgedMeansAll(cfg: S.Config, steps: seq<Step>, id: Id, task: int)
    requires cfg.Valid()
    ensures var jobs := Run(cfg, Start, steps).store.jobs;
            id in jobs && jobs[id].cleanup.DeleteAcknowledged? ==>
              !jobs[id].unknownDebt && (task in jobs[id].taskIds ==> task in jobs[id].acked)
  {
    RunAcks(cfg, Start, steps);
    var jobs := Run(cfg, Start, steps).store.jobs;
    if id in jobs && jobs[id].cleanup.DeleteAcknowledged? && task in jobs[id].taskIds {
      AllAcknowledged(jobs[id], task);
    }
  }

  /** The next task to delete remotely: the first of a terminal row that is not acknowledged, before the deadline
      flag. */
  method CleanupTask(j: Job) returns (task: Option<int>)
    ensures task.Some? ==>
              && Terminal(j.state) && !j.cleanupExceeded && task.value in j.taskIds && task.value !in j.acked
    ensures task.None? ==> !Terminal(j.state) || j.cleanupExceeded || forall t :: t in j.taskIds ==> t in j.acked
    ensures forall i :: task.Some? && 0 <= i < |j.taskIds| && j.taskIds[i] !in j.acked ==>
              exists k :: 0 <= k <= i && j.taskIds[k] == task.value
  {
    task := None;
    if Terminal(j.state) && !j.cleanupExceeded {
      for i := 0 to |j.taskIds|
        invariant forall k :: 0 <= k < i ==> j.taskIds[k] in j.acked
      {
        if j.taskIds[i] !in j.acked {
          return Some(j.taskIds[i]);
        }
      }
    }
  }
}
