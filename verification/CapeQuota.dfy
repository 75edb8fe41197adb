/** Admission quotas hold in every reachable state: rows and reserved bytes, of everyone and of each tenant. */
module CapeQuota {
  import opened Options
  import opened CapeJob
  import opened CapeProtocol
  import opened CapeSteps
  import opened CapeRuns
  import opened CapeHistory
  import S = CapeStore

  ghost predicate QuotaOk(cfg: S.Config, jobs: map<Id, Job>) {
    forall m, tenant :: S.Total(jobs, m, tenant, cfg.ids) <= S.Limit(cfg, m, tenant)
  }

  ghost predicate Lighter(jobs: map<Id, Job>, jobs': map<Id, Job>) {
    forall id, m, tenant :: S.WeightAt(jobs', id, m, tenant) <= S.WeightAt(jobs, id, m, tenant)
  }

  lemma {:induction false} TotalLighter(jobs: map<Id, Job>, jobs': map<Id, Job>, m: S.Measure,
                                        tenant: Option<string>, n: nat)
    requires Lighter(jobs, jobs')
    ensures S.Total(jobs', m, tenant, n) <= S.Total(jobs, m, tenant, n)
  {
    if n > 0 {
      TotalLighter(jobs, jobs', m, tenant, n - 1);
      assert S.WeightAt(jobs', n - 1, m, tenant) <= S.WeightAt(jobs, n - 1, m, tenant);
    }
  }

  lemma {:induction false} TotalAdds(jobs: map<Id, Job>, id: Id, k: Job, m: S.Measure, tenant: Option<string>, n: nat)
    requires id !in jobs
    ensures S.Total(jobs[id := k], m, tenant, n)
         == S.Total(jobs, m, tenant, n)
            + if id >= n || (tenant.Some? && tenant.value != k.key.tenant) then 0
              else if m.Rows? then 1 else k.reserved
  {
    if n > 0 {
      TotalAdds(jobs, id, k, m, tenant, n - 1);
    }
  }

  /** The row quota counts rows. */
  lemma {:induction false} TotalRows(jobs: map<Id, Job>, n: nat)
    ensures S.Total(jobs, S.Rows, None, n) == |set id | id in jobs && id < n|
  {
    var below := set id | id in jobs && id < n;
    if n == 0 {
      assert below == {};
    } else {
      TotalRows(jobs, n - 1);
      var less := set id | id in jobs && id < n - 1;
      assert below == if n - 1 in jobs then less + {n - 1} else less;
    }
  }

  lemma AdmitKeepsQuota(cfg: S.Config, w: World, id: Id, k: Job)
    requires QuotaOk(cfg, w.store.jobs) && id !in w.store.jobs && k.reserved == S.Footprint(cfg)
    requires Admitted(cfg, w.store, k.key)
    ensures QuotaOk(cfg, w.store.jobs[id := k])
  {
    var jobs := w.store.jobs;
    forall m, tenant
      ensures S.Total(jobs[id := k], m, tenant, cfg.ids) <= S.Limit(cfg, m, tenant)
    {
      TotalAdds(jobs, id, k, m, tenant, cfg.ids);
      assert S.Total(jobs, m, tenant, cfg.ids) <= S.Limit(cfg, m, tenant);
    }
  }

  lemma ChangeIsLighter(cfg: S.Config, w: World, v: World, c: Change)
    requires StagedOk(cfg, w.store.jobs) && TableFollows(cfg, w, v.store.jobs, c) && !c.Admits?
    ensures Lighter(w.store.jobs, v.store.jobs)
  {
  }

  lemma ChangeKeepsQuota(cfg: S.Config, w: World, v: World, c: Change)
    requires QuotaOk(cfg, w.store.jobs) && StagedOk(cfg, w.store.jobs) && TableFollows(cfg, w, v.store.jobs, c)
    requires forall id :: id in w.store.jobs ==> id in w.used
    ensures QuotaOk(cfg, v.store.jobs)
  {
    if c.Admits? {
      AdmitKeepsQuota(cfg, w, c.id, c.row);
    } else {
      ChangeIsLighter(cfg, w, v, c);
      forall m, tenant
        ensures S.Total(v.store.jobs, m, tenant, cfg.ids) <= S.Limit(cfg, m, tenant)
      {
        TotalLighter(w.store.jobs, v.store.jobs, m, tenant, cfg.ids);
        assert S.Total(w.store.jobs, m, tenant, cfg.ids) <= S.Limit(cfg, m, tenant);
      }
    }
  }

  lemma {:induction false} RunKeepsQuota(cfg: S.Config, w: World, steps: seq<Step>)
    requires cfg.Valid() && Sound(cfg, w) && QuotaOk(cfg, w.store.jobs)
    ensures QuotaOk(cfg, Run(cfg, w, steps).store.jobs)
    decreases |steps|
  {
    if steps != [] {
      var v := Apply(cfg, w, steps[0]);
      var c := StepSound(cfg, w, steps[0]);
      ChangeKeepsQuota(cfg, w, v, c);
      RunKeepsQuota(cfg, v, steps[1..]);
    }
  }

  lemma {:induction false} NoRows(m: S.Measure, tenant: Option<string>, n: nat)
    ensures S.Total(map[], m, tenant, n) == 0
  {
    if n > 0 {
      NoRows(m, tenant, n - 1);
    }
  }

  lemma StartKeepsQuota(cfg: S.Config)
    requires cfg.Valid()
    ensures QuotaOk(cfg, Start.store.jobs)
  {
    forall m, t
      ensures S.Total(Start.store.jobs, m, t, cfg.ids) <= S.Limit(cfg, m, t)
    {
      NoRows(m, t, cfg.ids);
    }
  }

  /** In every reachable state rows and reserved bytes stay within the global and every tenant's limit. */
  lemma QuotasHold(cfg: S.Config, steps: seq<Step>, tenant: Option<string>)
    requires cfg.Valid()
    ensures var jobs := Run(cfg, Start, steps).store.jobs;
            && |jobs| <= cfg.maxJobs
            && S.Total(jobs, S.Rows, tenant, cfg.ids) <= S.Limit(cfg, S.Rows, tenant)
            && S.Total(jobs, S.Bytes, tenant, cfg.ids) <= S.Limit(cfg, S.Bytes, tenant)
  {
    StartKeepsQuota(cfg);
    RunKeepsQuota(cfg, Start, steps);
    CountIsBounded(cfg, steps);
  }

  lemma CountIsBounded(cfg: S.Config, steps: seq<Step>)
    requires cfg.Valid() && QuotaOk(cfg, Run(cfg, Start, steps).store.jobs)
    ensures |Run(cfg, Start, steps).store.jobs| <= cfg.maxJobs
  {
    ReachableSound(cfg, steps);
    RowCount(cfg, Run(cfg, Start, steps).store.jobs);
  }

  lemma RowCount(cfg: S.Config, jobs: map<Id, Job>)
    requires QuotaOk(cfg, jobs) && StagedOk(cfg, jobs)
    ensures |jobs| <= cfg.maxJobs
  {
    TotalRows(jobs, cfg.ids);
    assert jobs.Keys == set id | id in jobs && id < cfg.ids;
    assert S.Total(jobs, S.Rows, None, cfg.ids) <= S.Limit(cfg, S.Rows, None);
  }
}
