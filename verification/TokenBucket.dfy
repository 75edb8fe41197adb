/** The persisted token buckets, in real arithmetic; times are nanoseconds of store time. */
module TokenBucket {
  import opened Options

  datatype Bucket = Bucket(tokens: real, stamp: int)

  datatype Take = Granted(bucket: Bucket) | Throttled | ClockBack | Corrupt

  function Min(a: real, b: real): real {
    if a <= b then a else b
  }

  /** Tokens earned in a stretch of time: one per minute for each unit of the rate. */
  function Earned(rate: nat, elapsed: int): real {
    if rate == 0 then 0.0 else Earned(rate - 1, elapsed) + elapsed as real / 60_000_000_000.0
  }

  /** At most a minute of refill is credited. */
  function Credited(b: Bucket, now: int): int {
    if now - b.stamp > 60_000_000_000 then 60_000_000_000 else now - b.stamp
  }

  /** Tokens in the bucket at `now`, never above the rate. */
  function Available(b: Bucket, rate: nat, now: int): real {
    Min(rate as real, b.tokens + Earned(rate, Credited(b, now)))
  }

  /** Take one token from a stored bucket, or from a full one when none is stored. */
  function TakeToken(b: Option<Bucket>, rate: nat, now: int): Take {
    if b.Some? && b.value.tokens < 0.0 then Corrupt
    else if b.Some? && now < b.value.stamp then ClockBack
    else
      var tokens := Level(b, rate, now);
      if tokens < 1.0 then Throttled else Granted(Bucket(tokens - 1.0, now))
  }

  /** What the bucket holds at `now`: the full rate when nothing is stored. */
  function Level(b: Option<Bucket>, rate: nat, now: int): real {
    if b.None? then rate as real else Available(b.value, rate, now)
  }

  /** A stored bucket is never negative and never above its rate. */
  ghost predicate Sane(b: Option<Bucket>, rate: nat) {
    b.Some? ==> 0.0 <= b.value.tokens <= rate as real
  }

  function Next(b: Option<Bucket>, rate: nat, t: int): Option<Bucket> {
    var r := TakeToken(b, rate, t);
    if r.Granted? then Some(r.bucket) else b
  }

  function Granted1(b: Option<Bucket>, rate: nat, t: int): nat {
    if TakeToken(b, rate, t).Granted? then 1 else 0
  }

  /** The bucket after a run of takes at the given times, and how many were granted. */
  function After(b: Option<Bucket>, rate: nat, times: seq<int>): Option<Bucket>
    decreases |times|
  {
    if times == [] then b else After(Next(b, rate, times[0]), rate, times[1..])
  }

  function Grants(b: Option<Bucket>, rate: nat, times: seq<int>): nat
    decreases |times|
  {
    if times == [] then 0 else Granted1(b, rate, times[0]) + Grants(Next(b, rate, times[0]), rate, times[1..])
  }

  ghost predicate Ordered(times: seq<int>) {
    forall i, j :: 0 <= i <= j < |times| ==> times[i] <= times[j]
  }

  lemma {:induction false} EarnedAdds(rate: nat, x: int, y: int)
    ensures Earned(rate, x + y) == Earned(rate, x) + Earned(rate, y)
  {
    if rate > 0 {
      EarnedAdds(rate - 1, x, y);
    }
  }

  lemma {:induction false} EarnedPositive(rate: nat, x: nat)
    ensures Earned(rate, x) >= 0.0
  {
    if rate > 0 {
      EarnedPositive(rate - 1, x);
    }
  }

  /** `rate * elapsed / minute`, the formula of the refill. */
  lemma {:induction false} EarnedIsProduct(rate: nat, x: int)
    ensures Earned(rate, x) == rate as real * x as real / 60_000_000_000.0
  {
    if rate > 0 {
      EarnedIsProduct(rate - 1, x);
      assert rate as real * x as real == (rate - 1) as real * x as real + x as real;
    }
  }

  lemma {:induction false} StaysSane(b: Option<Bucket>, rate: nat, times: seq<int>)
    requires Sane(b, rate)
    ensures Sane(After(b, rate, times), rate)
    decreases |times|
  {
    if times != [] {
      StaysSane(Next(b, rate, times[0]), rate, times[1..]);
    }
  }

  /** Waiting adds at most what the time waited earns. */
  lemma AvailableGrows(b: Bucket, rate: nat, t: int, later: int)
    requires b.stamp <= t <= later
    ensures Available(b, rate, later) <= Available(b, rate, t) + Earned(rate, later - t)
  {
    var e, f := Credited(b, t), Credited(b, later);
    EarnedAdds(rate, e, f - e);
    EarnedAdds(rate, f - e, (later - t) - (f - e));
    EarnedPositive(rate, f - e);
    EarnedPositive(rate, (later - t) - (f - e));
  }

  lemma LevelInRange(b: Option<Bucket>, rate: nat, t: int)
    requires Sane(b, rate) && (b.Some? ==> b.value.stamp <= t)
    ensures 0.0 <= Level(b, rate, t) <= rate as real
  {
    if b.Some? {
      EarnedPositive(rate, Credited(b.value, t));
    }
  }

  lemma LevelLater(b: Option<Bucket>, rate: nat, t: int, later: int)
    requires Sane(b, rate) && (b.Some? ==> b.value.stamp <= t) && t <= later
    ensures Level(Next(b, rate, t), rate, later) + Granted1(b, rate, t) as real
            <= Level(b, rate, t) + Earned(rate, later - t)
  {
    EarnedPositive(rate, later - t);
    var next := Next(b, rate, t);
    if next.Some? {
      AvailableGrows(next.value, rate, t, later);
      EarnedAdds(rate, 0, 0);
    }
  }

  lemma {:induction false} GrantsBounded(b: Option<Bucket>, rate: nat, times: seq<int>)
    requires times != [] && Ordered(times) && Sane(b, rate) && (b.Some? ==> b.value.stamp <= times[0])
    ensures Grants(b, rate, times) as real <= Level(b, rate, times[0]) + Earned(rate, times[|times| - 1] - times[0])
    decreases |times|
  {
    var rest := times[1..];
    var t, last := times[0], times[|times| - 1];
    LevelInRange(b, rate, t);
    EarnedPositive(rate, last - t);
    if rest != [] {
      GrantsBounded(Next(b, rate, t), rate, rest);
      LevelLater(b, rate, t, rest[0]);
      EarnedAdds(rate, rest[0] - t, last - rest[0]);
    }
  }

  /** In any stretch of any run, at most the rate plus what the stretch earns is granted. */
  lemma RateLimit(b: Option<Bucket>, rate: nat, before: seq<int>, times: seq<int>)
    requires times != [] && Ordered(before + times) && Sane(b, rate)
    requires b.Some? ==> b.value.stamp <= (before + times)[0]
    ensures Grants(After(b, rate, before), rate, times) as real
            <= rate as real + Earned(rate, times[|times| - 1] - times[0])
  {
    StaysSane(b, rate, before);
    OrderedParts(before, times);
    StampBefore(b, rate, before, times[0]);
    var start := After(b, rate, before);
    GrantsBounded(start, rate, times);
    LevelInRange(start, rate, times[0]);
  }

  lemma OrderedParts(a: seq<int>, b: seq<int>)
    requires Ordered(a + b) && b != []
    ensures Ordered(b) && Ordered(a + [b[0]])
  {
    assert forall i :: 0 <= i < |b| ==> b[i] == (a + b)[|a| + i];
    assert forall i :: 0 <= i <= |a| ==> (a + [b[0]])[i] == (a + b)[i];
  }

  lemma {:induction false} StampBefore(b: Option<Bucket>, rate: nat, times: seq<int>, t: int)
    requires Ordered(times + [t]) && (b.Some? ==> b.value.stamp <= (times + [t])[0])
    ensures After(b, rate, times).Some? ==> After(b, rate, times).value.stamp <= t
    decreases |times|
  {
    if times != [] {
      var all := times + [t];
      assert times[1..] + [t] == all[1..];
      assert all[0] <= all[1] && all[|all| - 1] == t;
      StampBefore(Next(b, rate, times[0]), rate, times[1..], t);
    }
  }

  // ---- what a bucket holds, from its own fields ----

  const MINUTE: int := 60_000_000_000

  lemma FullMinute(rate: nat)
    ensures Earned(rate, MINUTE) == rate as real
  {
    EarnedIsProduct(rate, MINUTE);
    assert rate as real * 60_000_000_000.0 / 60_000_000_000.0 == rate as real;
  }

  lemma EarnedGrows(rate: nat, x: int, y: int)
    requires x <= y
    ensures Earned(rate, x) <= Earned(rate, y)
  {
    EarnedAdds(rate, x, y - x);
    EarnedPositive(rate, y - x);
  }

  /** Crediting at most a minute loses nothing, since a minute fills the bucket. */
  lemma AvailableIsEarned(b: Bucket, rate: nat, now: int)
    requires 0.0 <= b.tokens && b.stamp <= now
    ensures Available(b, rate, now) == Min(rate as real, b.tokens + Earned(rate, now - b.stamp))
  {
    if now - b.stamp > MINUTE {
      FullMinute(rate);
      EarnedGrows(rate, MINUTE, now - b.stamp);
    }
  }

  /** A take is granted exactly when stored tokens and refill make one, and leaves one less. */
  lemma TakeExact(b: Bucket, rate: nat, now: int)
    requires 0.0 <= b.tokens && b.stamp <= now
    ensures var have := b.tokens + rate as real * (now - b.stamp) as real / 60_000_000_000.0;
            TakeToken(Some(b), rate, now)
            == if have < 1.0 || rate == 0 then Throttled
               else Granted(Bucket((if have > rate as real then rate as real else have) - 1.0, now))
  {
    AvailableIsEarned(b, rate, now);
    EarnedIsProduct(rate, now - b.stamp);
  }

  /** Stored tokens and refill make one; a bucket that was never used is full. */
  predicate Holds(b: Option<Bucket>, rate: nat, now: int) {
    && rate >= 1
    && (b.Some? ==> b.value.tokens + rate as real * (now - b.value.stamp) as real / 60_000_000_000.0 >= 1.0)
  }

  lemma GrantedIffHolds(b: Option<Bucket>, rate: nat, now: int)
    requires Sane(b, rate) && (b.Some? ==> b.value.stamp <= now)
    ensures TakeToken(b, rate, now).Granted? <==> Holds(b, rate, now)
    ensures TakeToken(b, rate, now).Throttled? <==> !Holds(b, rate, now)
  {
    if b.Some? {
      TakeExact(b.value, rate, now);
    }
  }

  /** A minute after its stamp a bucket is full again, like one that was never used. */
  lemma FullAfterAMinute(b: Option<Bucket>, rate: nat, now: int)
    requires Sane(b, rate) && rate >= 1 && (b.Some? ==> b.value.stamp + MINUTE <= now)
    ensures TakeToken(b, rate, now) == Granted(Bucket(rate as real - 1.0, now))
  {
    if b.Some? {
      FullMinute(rate);
    }
  }

  // ---- no take is refused without need ----

  lemma WaitRefills(b: Bucket, rate: nat, t: int, later: int)
    requires 0.0 <= b.tokens && b.stamp <= t <= later
    ensures Available(b, rate, later) >= Min(rate as real, Available(b, rate, t) + Earned(rate, later - t))
  {
    AvailableIsEarned(b, rate, t);
    AvailableIsEarned(b, rate, later);
    EarnedAdds(rate, t - b.stamp, later - t);
  }

  /** Waiting refills: nothing is lost but what does not fit. */
  lemma LevelServed(b: Option<Bucket>, rate: nat, t: int, later: int)
    requires Sane(b, rate) && (b.Some? ==> b.value.stamp <= t) && t <= later
    ensures Level(Next(b, rate, t), rate, later) + Granted1(b, rate, t) as real
            >= Min(rate as real, Level(b, rate, t) + Earned(rate, later - t))
  {
    if TakeToken(b, rate, t).Granted? {
      AvailableIsEarned(Next(b, rate, t).value, rate, later);
    } else if b.Some? {
      WaitRefills(b.value, rate, t, later);
    }
  }

  lemma ServedOn(rate: real, level: real, e1: real, next: real, g: real, e2: real, last: real, gs: real)
    requires next + g >= Min(rate, level + e1) && last + gs >= Min(rate, next + e2) && 0.0 <= e2 && 0.0 <= g
    ensures last + (g + gs) >= Min(rate, level + (e1 + e2))
  {
  }

  lemma OrderedTail(times: seq<int>, t: int)
    requires times != [] && Ordered(times + [t])
    ensures Ordered(times[1..] + [t]) && times[0] <= (times[1..] + [t])[0] <= t
  {
    var all := times + [t];
    assert times[1..] + [t] == all[1..];
    assert all[0] == times[0] && all[|times|] == t;
    assert all[0] <= all[1] <= all[|times|];
  }

  lemma {:induction false} GrantsServed(b: Option<Bucket>, rate: nat, times: seq<int>, t: int)
    requires times != [] && Ordered(times + [t]) && Sane(b, rate) && (b.Some? ==> b.value.stamp <= times[0])
    ensures Level(After(b, rate, times), rate, t) + Grants(b, rate, times) as real
            >= Min(rate as real, Level(b, rate, times[0]) + Earned(rate, t - times[0]))
    decreases |times|
  {
    var rest, start, next := times[1..], times[0], Next(b, rate, times[0]);
    OrderedTail(times, t);
    if rest == [] {
      LevelServed(b, rate, start, t);
    } else {
      var mid := rest[0];
      LevelServed(b, rate, start, mid);
      GrantsServed(next, rate, rest, t);
      EarnedAdds(rate, mid - start, t - mid);
      EarnedPositive(rate, t - mid);
      ServedOn(rate as real, Level(b, rate, start), Earned(rate, mid - start), Level(next, rate, mid),
               Granted1(b, rate, start) as real, Earned(rate, t - mid), Level(After(next, rate, rest), rate, t),
               Grants(next, rate, rest) as real);
    }
  }

  /** The partner of the rate limit: a take is refused only if the grants since any earlier take used up what the time
      between earned, less than one token short; after a minute, the whole rate. */
  lemma RefusedMeansUsed(b: Option<Bucket>, rate: nat, times: seq<int>, t: int)
    requires times != [] && Ordered(times + [t]) && Sane(b, rate) && (b.Some? ==> b.value.stamp <= times[0])
    requires TakeToken(After(b, rate, times), rate, t).Throttled?
    ensures Grants(b, rate, times) as real + 1.0 > Min(rate as real, Earned(rate, t - times[0]))
    ensures t - times[0] >= MINUTE ==> Grants(b, rate, times) >= rate
  {
    GrantsServed(b, rate, times, t);
    LevelInRange(b, rate, times[0]);
    if t - times[0] >= MINUTE {
      FullMinute(rate);
      EarnedGrows(rate, MINUTE, t - times[0]);
    }
  }
}
