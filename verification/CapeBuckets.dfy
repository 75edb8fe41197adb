/**
 * The three submission buckets over every run: never overdrawn, all or none taken, and so a bounded submission
 * rate.
 */
module CapeBuckets {
  import opened Options
  import opened Sets
  import opened CapeJob
  import opened CapeProtocol
  import opened CapeSafety
  import opened CapeRuns
  import opened CapeHistory
  import opened CapeScheduler
  import opened CapeDelivery
  import S = CapeStore
  import TB = TokenBucket

  type Buckets = map<S.BucketName, TB.Bucket>

  /** A stored bucket holds between nothing and its rate, and was last used no later than store time. */
  ghost predicate BucketOk(cfg: S.Config, s: S.Store, b: S.BucketName) {
    b in s.buckets ==>
      TB.Sane(Some(s.buckets[b]), S.Rate(cfg, b)) && s.clock.Some? && s.buckets[b].stamp <= s.clock.value
  }

  ghost predicate BucketsOk(cfg: S.Config, s: S.Store) {
    forall b :: BucketOk(cfg, s, b)
  }

  predicate ClockOn(s: S.Store, t: S.Store) {
    s.clock.Some? ==> t.clock.Some? && s.clock.value <= t.clock.value
  }

  /** One token of `b` was taken at the new store time. */
  predicate Taken(cfg: S.Config, s: S.Store, t: S.Store, b: S.BucketName) {
    && t.clock.Some? && b in t.buckets
    && TB.TakeToken(S.Stored(s.buckets, b), S.Rate(cfg, b), t.clock.value) == TB.Granted(t.buckets[b])
  }

  predicate Untaken(s: S.Store, t: S.Store, b: S.BucketName) {
    S.Stored(t.buckets, b) == S.Stored(s.buckets, b)
  }

  ghost predicate BucketsFollow(cfg: S.Config, s: S.Store, t: S.Store) {
    ClockOn(s, t) && forall b :: Untaken(s, t, b) || Taken(cfg, s, t, b)
  }

  // ---- taking several tokens ----

  /** From distinct buckets exactly the named ones give a token each. */
  lemma {:induction false} TakesEach(cfg: S.Config, buckets: Buckets, names: seq<S.BucketName>, now: int,
                                     b: S.BucketName)
    requires forall i, j :: 0 <= i < j < |names| ==> names[i] != names[j]
    requires S.TakeAll(cfg, buckets, names, now).Ok?
    ensures var after := S.TakeAll(cfg, buckets, names, now).value;
            if b in names then
              b in after && TB.TakeToken(S.Stored(buckets, b), S.Rate(cfg, b), now) == TB.Granted(after[b])
            else S.Stored(after, b) == S.Stored(buckets, b)
    decreases |names|
  {
    if names != [] {
      var r := TB.TakeToken(S.Stored(buckets, names[0]), S.Rate(cfg, names[0]), now);
      var rest := names[1..];
      assert forall x :: x in names <==> x == names[0] || x in rest;
      assert names[0] !in rest;
      TakesEach(cfg, buckets[names[0] := r.bucket], rest, now, b);
    }
  }

  /** The submission takes its three tokens exactly when each bucket holds one. */
  lemma ThreeTokens(cfg: S.Config, s: S.Store, tenant: string, now: int)
    requires BucketsOk(cfg, s) && (s.clock.Some? ==> s.clock.value <= now)
    ensures S.TakeAll(cfg, s.buckets, S.SubmitBuckets(tenant), now).Ok? <==>
              forall b :: b in S.SubmitBuckets(tenant) ==> TB.Holds(S.Stored(s.buckets, b), S.Rate(cfg, b), now)
    ensures S.TakeAll(cfg, s.buckets, S.SubmitBuckets(tenant), now).Err? ==>
              S.TakeAll(cfg, s.buckets, S.SubmitBuckets(tenant), now).error == S.Local(Throttled)
  {
    var names := S.SubmitBuckets(tenant);
    forall b | b in names
      ensures TB.TakeToken(S.Stored(s.buckets, b), S.Rate(cfg, b), now).Granted? ==
              TB.Holds(S.Stored(s.buckets, b), S.Rate(cfg, b), now)
      ensures TB.TakeToken(S.Stored(s.buckets, b), S.Rate(cfg, b), now).Granted?
              || TB.TakeToken(S.Stored(s.buckets, b), S.Rate(cfg, b), now).Throttled?
    {
      assert BucketOk(cfg, s, b);
      TB.GrantedIffHolds(S.Stored(s.buckets, b), S.Rate(cfg, b), now);
    }
    ThreeTakes(cfg, s.buckets, tenant, now);
  }

  /** Distinct buckets do not disturb each other. */
  lemma ThreeTakes(cfg: S.Config, buckets: Buckets, tenant: string, now: int)
    ensures S.TakeAll(cfg, buckets, S.SubmitBuckets(tenant), now).Ok? <==>
              forall b :: b in S.SubmitBuckets(tenant) ==>
                TB.TakeToken(S.Stored(buckets, b), S.Rate(cfg, b), now).Granted?
    ensures (forall b :: b in S.SubmitBuckets(tenant) ==>
              TB.TakeToken(S.Stored(buckets, b), S.Rate(cfg, b), now).Granted?
              || TB.TakeToken(S.Stored(buckets, b), S.Rate(cfg, b), now).Throttled?) ==>
            var r := S.TakeAll(cfg, buckets, S.SubmitBuckets(tenant), now); r.Err? ==> r.error == S.Local(Throttled)
  {
    var names := S.SubmitBuckets(tenant);
    assert names == [S.Requests] + ([S.Submits] + ([S.OfTenant(tenant)] + []));
    assert forall b :: b in names <==> b == S.Requests || b == S.Submits || b == S.OfTenant(tenant);
    TakeNext(cfg, buckets, S.Requests, [S.Submits] + ([S.OfTenant(tenant)] + []), now);
    var first := TB.TakeToken(S.Stored(buckets, S.Requests), S.Rate(cfg, S.Requests), now);
    if first.Granted? {
      var left := buckets[S.Requests := first.bucket];
      TakeNext(cfg, left, S.Submits, [S.OfTenant(tenant)] + [], now);
      assert S.Stored(left, S.Submits) == S.Stored(buckets, S.Submits);
      var second := TB.TakeToken(S.Stored(buckets, S.Submits), S.Rate(cfg, S.Submits), now);
      if second.Granted? {
        var last := left[S.Submits := second.bucket];
        TakeNext(cfg, last, S.OfTenant(tenant), [], now);
        assert S.Stored(last, S.OfTenant(tenant)) == S.Stored(buckets, S.OfTenant(tenant));
      }
    }
  }

  lemma TakeNext(cfg: S.Config, buckets: Buckets, b: S.BucketName, rest: seq<S.BucketName>, now: int)
    ensures var r := TB.TakeToken(S.Stored(buckets, b), S.Rate(cfg, b), now);
            var all := S.TakeAll(cfg, buckets, [b] + rest, now);
            && (r.Granted? ==> all == S.TakeAll(cfg, buckets[b := r.bucket], rest, now))
            && (!r.Granted? ==> all.Err?) && (r.Throttled? ==> all.error == S.Local(Throttled))
  {
    assert ([b] + rest)[1..] == rest;
  }

  // ---- every step ----

  predicate Idle(s: S.Store, t: S.Store) {
    t.buckets == s.buckets && ClockOn(s, t)
  }

  lemma IngressIdle(cfg: S.Config, s: S.Store, e: Step)
    requires e.OpenTemporary? || e.StoreBlob? || e.Publish? || e.Abandon? || e.WriterStops? || e.RemovePayload?
    ensures Idle(s, StoreStep(cfg, s, e))
  {
  }

  lemma DeadlineIdle(cfg: S.Config, s: S.Store, e: Step)
    requires e.Cancel? || e.Expire?
    ensures Idle(s, StoreStep(cfg, s, e))
  {
  }

  lemma LifecycleIdle(cfg: S.Config, s: S.Store, e: Step)
    requires e.RecordDeletion? || e.Retain? || e.Report?
    ensures Idle(s, StoreStep(cfg, s, e))
  {
  }

  lemma StoreIdle(cfg: S.Config, s: S.Store, e: Step)
    requires StoreOnly(e) && !e.Reschedule? && !e.TakeRequest?
    ensures Idle(s, StoreStep(cfg, s, e))
  {
    if e.Cancel? || e.Expire? {
      DeadlineIdle(cfg, s, e);
    } else if e.RecordDeletion? || e.Retain? || e.Report? {
      LifecycleIdle(cfg, s, e);
    } else if !e.SetAdmission? && !e.RecoverRow? {
      IngressIdle(cfg, s, e);
    }
  }

  lemma PersistIdle(w: World, k: nat, backoff: int, reading: int, raw: int, fault: Fault)
    ensures Idle(w.store, PersistStep(w, k, backoff, reading, raw, fault).store)
  {
  }

  lemma RestartIdle(cfg: S.Config, w: World, e: Step)
    requires e.Reserve? || e.Answer? || e.Crash? || e.Reopen?
    ensures Idle(w.store, Apply(cfg, w, e).store)
  {
  }

  lemma StepIdle(cfg: S.Config, w: World, e: Step)
    requires !e.Dispatch? && !e.Reschedule? && !e.TakeRequest?
    ensures Idle(w.store, Apply(cfg, w, e).store)
  {
    if Enabled(w, e) {
      if StoreOnly(e) {
        StoreIdle(cfg, w.store, e);
      } else if e.Persist? {
        PersistIdle(w, e.k, e.backoff, e.reading, e.raw, e.fault);
      } else {
        RestartIdle(cfg, w, e);
      }
    }
  }

  lemma RequestBuckets(cfg: S.Config, s: S.Store, t: S.Store, take: bool)
    requires ClockOn(s, t) && t.clock.Some?
    requires S.TakeAll(cfg, s.buckets, if take then [S.Requests] else [], t.clock.value) == S.Ok(t.buckets)
    ensures BucketsFollow(cfg, s, t)
  {
    forall b
      ensures Untaken(s, t, b) || Taken(cfg, s, t, b)
    {
      TakesEach(cfg, s.buckets, if take then [S.Requests] else [], t.clock.value, b);
    }
  }

  lemma RequestStepBuckets(cfg: S.Config, w: World, e: Step)
    requires e.Reschedule? || e.TakeRequest?
    ensures BucketsFollow(cfg, w.store, Apply(cfg, w, e).store)
  {
    var s, t := w.store, Apply(cfg, w, e).store;
    if t != s {
      RequestBuckets(cfg, s, t, if e.Reschedule? then e.take else true);
    }
  }

  ghost predicate AllTaken(cfg: S.Config, s: S.Store, t: S.Store, tenant: string) {
    && ClockOn(s, t)
    && forall b :: if b in S.SubmitBuckets(tenant) then Taken(cfg, s, t, b) else Untaken(s, t, b)
  }

  lemma BeginBuckets(cfg: S.Config, s: S.Store, id: Id, version: int, reading: int, t: S.Store)
    requires var r := S.BeginSubmission(cfg, s, id, version, reading);
             r.Ok? && t.buckets == r.value.buckets && t.clock == r.value.clock
    ensures id in s.jobs && AllTaken(cfg, s, t, s.jobs[id].key.tenant)
  {
    var tenant := s.jobs[id].key.tenant;
    forall b
      ensures if b in S.SubmitBuckets(tenant) then Taken(cfg, s, t, b) else Untaken(s, t, b)
    {
      TakesEach(cfg, s.buckets, S.SubmitBuckets(tenant), t.clock.value, b);
    }
  }

  /** A begin takes one token from each of its three buckets; one that is throttled or rolled back takes none. */
  lemma DispatchTakesAllOrNone(cfg: S.Config, w: World, id: Id, version: int, reading: int, fault: Fault)
    ensures var v := DispatchStep(cfg, w, id, version, reading, fault);
            || (v.store == w.store && v.attempts == w.attempts)
            || (&& id in w.store.jobs && AllTaken(cfg, w.store, v.store, w.store.jobs[id].key.tenant)
                && v.attempts == w.attempts[Ticket(id, w.store.jobs[id].version + 1) :=
                                              Attempt(w.store.jobs[id].key, Open)])
  {
    var r := S.BeginSubmission(cfg, w.store, id, version, reading);
    var v := DispatchStep(cfg, w, id, version, reading, fault);
    if v.store != w.store || v.attempts != w.attempts {
      BeginBuckets(cfg, w.store, id, version, reading, v.store);
    }
  }

  lemma StepBuckets(cfg: S.Config, w: World, e: Step)
    ensures BucketsFollow(cfg, w.store, Apply(cfg, w, e).store)
  {
    if e.Dispatch? {
      DispatchTakesAllOrNone(cfg, w, e.id, e.version, e.reading, e.fault);
    } else if e.Reschedule? || e.TakeRequest? {
      RequestStepBuckets(cfg, w, e);
    } else {
      StepIdle(cfg, w, e);
    }
  }

  lemma StepBucketsOk(cfg: S.Config, s: S.Store, t: S.Store)
    requires BucketsOk(cfg, s) && BucketsFollow(cfg, s, t)
    ensures BucketsOk(cfg, t)
  {
    forall b
      ensures BucketOk(cfg, t, b)
    {
      assert BucketOk(cfg, s, b);
      assert Untaken(s, t, b) || Taken(cfg, s, t, b);
    }
  }

  lemma {:induction false} RunBucketsOk(cfg: S.Config, w: World, steps: seq<Step>)
    requires BucketsOk(cfg, w.store)
    ensures BucketsOk(cfg, Run(cfg, w, steps).store)
    decreases |steps|
  {
    if steps != [] {
      StepBuckets(cfg, w, steps[0]);
      StepBucketsOk(cfg, w.store, Apply(cfg, w, steps[0]).store);
      RunBucketsOk(cfg, Apply(cfg, w, steps[0]), steps[1..]);
    }
  }

  /** In every reachable state a stored bucket holds between zero and its rate, and no bucket can refuse for its
      clock. */
  lemma BucketsStaySane(cfg: S.Config, steps: seq<Step>, b: S.BucketName)
    ensures var s := Run(cfg, Start, steps).store;
            b in s.buckets ==> 0.0 <= s.buckets[b].tokens <= S.Rate(cfg, b) as real
                               && s.clock.Some? && s.buckets[b].stamp <= s.clock.value
  {
    RunBucketsOk(cfg, Start, steps);
    assert BucketOk(cfg, Run(cfg, Start, steps).store, b);
  }

  // ---- the submission rate ----

  function BucketOf(tenant: Option<string>): S.BucketName {
    if tenant.None? then S.Submits else S.OfTenant(tenant.value)
  }

  /** Attempts ever begun, by everyone or by one tenant. */
  function BegunBy(attempts: map<Ticket, Attempt>, tenant: Option<string>): set<Ticket> {
    set t | t in attempts && (tenant.None? || attempts[t].key.tenant == tenant.value)
  }

  /** What the bucket holds at store time. */
  function Fill(cfg: S.Config, s: S.Store, b: S.BucketName): real
    requires s.clock.Some?
  {
    TB.Level(S.Stored(s.buckets, b), S.Rate(cfg, b), s.clock.value)
  }

  lemma FillGrows(cfg: S.Config, s: S.Store, t: S.Store, b: S.BucketName)
    requires BucketOk(cfg, s, b) && s.clock.Some? && ClockOn(s, t) && Untaken(s, t, b)
    ensures Fill(cfg, t, b) <= Fill(cfg, s, b) + TB.Earned(S.Rate(cfg, b), t.clock.value - s.clock.value)
  {
    TB.EarnedPositive(S.Rate(cfg, b), t.clock.value - s.clock.value);
    if b in s.buckets {
      TB.AvailableGrows(s.buckets[b], S.Rate(cfg, b), s.clock.value, t.clock.value);
    }
  }

  lemma FillPays(cfg: S.Config, s: S.Store, t: S.Store, b: S.BucketName)
    requires BucketOk(cfg, s, b) && s.clock.Some? && ClockOn(s, t) && Taken(cfg, s, t, b)
    ensures Fill(cfg, t, b) + 1.0 <= Fill(cfg, s, b) + TB.Earned(S.Rate(cfg, b), t.clock.value - s.clock.value)
  {
    var middle := s.(clock := t.clock);
    FillGrows(cfg, s, middle, b);
    TB.LevelLater(S.Stored(s.buckets, b), S.Rate(cfg, b), t.clock.value, t.clock.value);
    TB.EarnedAdds(S.Rate(cfg, b), 0, 0);
  }

  lemma FillMoves(cfg: S.Config, s: S.Store, t: S.Store, b: S.BucketName)
    requires BucketsOk(cfg, s) && s.clock.Some? && BucketsFollow(cfg, s, t)
    ensures t.clock.Some?
    ensures Fill(cfg, t, b) + (if Taken(cfg, s, t, b) then 1.0 else 0.0)
            <= Fill(cfg, s, b) + TB.Earned(S.Rate(cfg, b), t.clock.value - s.clock.value)
  {
    assert BucketOk(cfg, s, b);
    assert Untaken(s, t, b) || Taken(cfg, s, t, b);
    if Taken(cfg, s, t, b) {
      FillPays(cfg, s, t, b);
    } else {
      FillGrows(cfg, s, t, b);
    }
  }

  /** Tokens left plus attempts begun, which only the passing of time can raise. */
  ghost function Account(cfg: S.Config, w: World, tenant: Option<string>): real
    requires w.store.clock.Some?
  {
    Fill(cfg, w.store, BucketOf(tenant)) + |BegunBy(w.attempts, tenant)| as real
  }

  /** What the rate earns in the store time that passed: rate times minutes. */
  function Income(cfg: S.Config, w: World, v: World, tenant: Option<string>): real
    requires w.store.clock.Some? && v.store.clock.Some?
  {
    TB.Earned(S.Rate(cfg, BucketOf(tenant)), v.store.clock.value - w.store.clock.value)
  }

  /** The account rises by at most the income. */
  ghost predicate Pays(cfg: S.Config, w: World, v: World, tenant: Option<string>) {
    && w.store.clock.Some? && v.store.clock.Some?
    && Account(cfg, v, tenant) <= Account(cfg, w, tenant) + Income(cfg, w, v, tenant)
  }

  lemma PaysFurther(cfg: S.Config, w: World, v: World, u: World, tenant: Option<string>)
    requires Pays(cfg, w, v, tenant) && Pays(cfg, v, u, tenant)
    ensures Pays(cfg, w, u, tenant)
  {
    TB.EarnedAdds(S.Rate(cfg, BucketOf(tenant)), v.store.clock.value - w.store.clock.value,
                  u.store.clock.value - v.store.clock.value);
  }

  lemma PaysNothing(cfg: S.Config, w: World, tenant: Option<string>)
    requires w.store.clock.Some?
    ensures Pays(cfg, w, w, tenant)
  {
    TB.EarnedAdds(S.Rate(cfg, BucketOf(tenant)), 0, 0);
  }

  /** At most one new attempt, and only if the bucket gave a token. */
  ghost predicate BeginsAtMostOne(cfg: S.Config, w: World, v: World, tenant: Option<string>) {
    |BegunBy(v.attempts, tenant)|
    <= |BegunBy(w.attempts, tenant)| + if Taken(cfg, w.store, v.store, BucketOf(tenant)) then 1 else 0
  }

  lemma PaysOnce(cfg: S.Config, w: World, v: World, tenant: Option<string>)
    requires BucketsOk(cfg, w.store) && w.store.clock.Some? && BucketsFollow(cfg, w.store, v.store)
    requires BeginsAtMostOne(cfg, w, v, tenant)
    ensures Pays(cfg, w, v, tenant)
  {
    FillMoves(cfg, w.store, v.store, BucketOf(tenant));
  }

  lemma StepPays(cfg: S.Config, w: World, e: Step, tenant: Option<string>)
    requires BucketsOk(cfg, w.store) && w.store.clock.Some? && CoreOk(w.store.jobs, w.attempts)
    ensures Pays(cfg, w, Apply(cfg, w, e), tenant) && BucketsOk(cfg, Apply(cfg, w, e).store)
  {
    var v := Apply(cfg, w, e);
    StepBuckets(cfg, w, e);
    StepBucketsOk(cfg, w.store, v.store);
    AtMostOneMore(cfg, w, e, tenant);
    PaysOnce(cfg, w, v, tenant);
  }

  lemma {:induction false} RunPays(cfg: S.Config, w: World, steps: seq<Step>, tenant: Option<string>)
    requires cfg.Valid() && BucketsOk(cfg, w.store) && w.store.clock.Some? && Sound(cfg, w)
    ensures Pays(cfg, w, Run(cfg, w, steps), tenant)
    decreases |steps|
  {
    if steps == [] {
      PaysNothing(cfg, w, tenant);
    } else {
      var v := Apply(cfg, w, steps[0]);
      StepPays(cfg, w, steps[0], tenant);
      var c := StepSound(cfg, w, steps[0]);
      RunPays(cfg, v, steps[1..], tenant);
      PaysFurther(cfg, w, v, Run(cfg, v, steps[1..]), tenant);
    }
  }

  /** The attempts begun between two moments number at most the rate plus its share of the store time that passed. */
  ghost predicate RateBounded(cfg: S.Config, w: World, v: World, tenant: Option<string>) {
    && w.store.clock.Some? && v.store.clock.Some?
    && |BegunBy(v.attempts, tenant)| as real - |BegunBy(w.attempts, tenant)| as real
       <= S.Rate(cfg, BucketOf(tenant)) as real + Income(cfg, w, v, tenant)
  }

  lemma PaysIsBounded(cfg: S.Config, w: World, v: World, tenant: Option<string>)
    requires Pays(cfg, w, v, tenant) && BucketsOk(cfg, w.store) && BucketsOk(cfg, v.store)
    ensures RateBounded(cfg, w, v, tenant)
  {
    var b := BucketOf(tenant);
    FillInRange(cfg, w.store, b);
    FillInRange(cfg, v.store, b);
  }

  /** Over any stretch of any run, the submission rate of everyone and of each tenant is bounded. */
  lemma SubmissionRateBounded(cfg: S.Config, before: seq<Step>, after: seq<Step>, tenant: Option<string>)
    requires cfg.Valid() && Run(cfg, Start, before).store.clock.Some?
    ensures RateBounded(cfg, Run(cfg, Start, before), Run(cfg, Run(cfg, Start, before), after), tenant)
  {
    var w := Run(cfg, Start, before);
    ReachableSound(cfg, before);
    RunBucketsOk(cfg, Start, before);
    RunPays(cfg, w, after, tenant);
    RunBucketsOk(cfg, w, after);
    PaysIsBounded(cfg, w, Run(cfg, w, after), tenant);
  }

  lemma FillInRange(cfg: S.Config, s: S.Store, b: S.BucketName)
    requires BucketsOk(cfg, s) && s.clock.Some?
    ensures 0.0 <= Fill(cfg, s, b) <= S.Rate(cfg, b) as real
  {
    assert BucketOk(cfg, s, b);
    TB.LevelInRange(S.Stored(s.buckets, b), S.Rate(cfg, b), s.clock.value);
  }

  ghost predicate KeysKept(a: map<Ticket, Attempt>, b: map<Ticket, Attempt>) {
    forall t :: t in a ==> t in b && b[t].key == a[t].key
  }

  lemma SameBegun(a: map<Ticket, Attempt>, b: map<Ticket, Attempt>, tenant: Option<string>)
    requires KeysKept(a, b) && a.Keys == b.Keys
    ensures BegunBy(a, tenant) == BegunBy(b, tenant)
  {
  }

  /** Recording an outcome begins nothing. */
  lemma RecordsBeginNothing(cfg: S.Config, w: World, e: Step, tenant: Option<string>)
    requires CoreOk(w.store.jobs, w.attempts) && !e.Dispatch?
    ensures BegunBy(w.attempts, tenant) == BegunBy(Apply(cfg, w, e).attempts, tenant)
  {
    var v := Apply(cfg, w, e);
    if v.attempts.Keys != w.attempts.Keys {
      BeginsOnlyWhenQueueEmpty(cfg, w, e);
    }
    KeysStay(cfg, w, e);
    SameBegun(w.attempts, v.attempts, tenant);
  }

  /** No step changes the key of an attempt. */
  lemma KeysStay(cfg: S.Config, w: World, e: Step)
    requires CoreOk(w.store.jobs, w.attempts)
    ensures KeysKept(w.attempts, Apply(cfg, w, e).attempts)
  {
    if e.Persist? {
      PersistKeepsKeys(w, e.k, e.backoff, e.reading, e.raw, e.fault);
    } else if e.Dispatch? {
      DispatchTakesAllOrNone(cfg, w, e.id, e.version, e.reading, e.fault);
      if e.id in w.store.jobs {
        NextTicketIsFresh(w.store.jobs, w.attempts, e.id);
      }
    } else if !e.Answer? && !e.Crash? {
      StepAside(cfg, w, e);
    }
  }

  lemma PersistKeepsKeys(w: World, k: nat, backoff: int, reading: int, raw: int, fault: Fault)
    requires CoreOk(w.store.jobs, w.attempts)
    ensures KeysKept(w.attempts, PersistStep(w, k, backoff, reading, raw, fault).attempts)
  {
    if k < |w.pending| && w.pending[k].id in w.store.jobs {
      var p := w.pending[k];
      var j := w.store.jobs[p.id];
      assert RowOk(j);
      if !Moot(p, j) && Recordable(j, PacketVersion(p, j)) {
        UnrecordedIsOpen(w.store.jobs, w.attempts, p.id);
      }
    }
  }

  lemma AtMostOneMore(cfg: S.Config, w: World, e: Step, tenant: Option<string>)
    requires CoreOk(w.store.jobs, w.attempts)
    ensures BeginsAtMostOne(cfg, w, Apply(cfg, w, e), tenant)
  {
    if !e.Dispatch? {
      RecordsBeginNothing(cfg, w, e, tenant);
    } else if w.open {
      ApplyDispatch(cfg, w, e);
      DispatchAtMostOne(cfg, w, e.id, e.version, e.reading, e.fault, tenant);
    }
  }

  lemma DispatchAtMostOne(cfg: S.Config, w: World, id: Id, version: int, reading: int, fault: Fault,
                          tenant: Option<string>)
    requires CoreOk(w.store.jobs, w.attempts)
    ensures BeginsAtMostOne(cfg, w, DispatchStep(cfg, w, id, version, reading, fault), tenant)
  {
    var v := DispatchStep(cfg, w, id, version, reading, fault);
    DispatchTakesAllOrNone(cfg, w, id, version, reading, fault);
    if v.attempts != w.attempts {
      OneMore(cfg, w, v, Ticket(id, w.store.jobs[id].version + 1), Attempt(w.store.jobs[id].key, Open), tenant);
    }
  }

  lemma OneMore(cfg: S.Config, w: World, v: World, t: Ticket, a: Attempt, tenant: Option<string>)
    requires v.attempts == w.attempts[t := a] && AllTaken(cfg, w.store, v.store, a.key.tenant) && t !in w.attempts
    ensures BeginsAtMostOne(cfg, w, v, tenant)
  {
    var before, after := BegunBy(w.attempts, tenant), BegunBy(v.attempts, tenant);
    if tenant.None? || a.key.tenant == tenant.value {
      assert BucketOf(tenant) in S.SubmitBuckets(a.key.tenant);
      SubsetSize(after, before + {t});
    } else {
      SubsetSize(after, before);
    }
  }
}
