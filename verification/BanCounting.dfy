/** What the zone counts: which hits arm a ban, how long it lasts, and how many were issued. */
module BanCounting {
  import opened BanModel
  import opened BanEviction

  // ---- the queue ----

  function Without(s: seq<Key>, k: Key): seq<Key> {
    if s == [] then [] else (if s[0] == k then [] else [s[0]]) + Without(s[1..], k)
  }

  lemma {:induction false} WithoutAbsent(s: seq<Key>, k: Key)
    requires k !in s
    ensures Without(s, k) == s
  {
    if s != [] {
      WithoutAbsent(s[1..], k);
      assert [s[0]] + s[1..] == s;
    }
  }

  lemma {:induction false} RemoveIsWithout(s: seq<Key>, k: Key)
    requires Distinct(s) && k in s
    ensures RemoveAt(s, IndexOf(s, k)) == Without(s, k)
  {
    var rest := s[1..];
    if s[0] == k {
      assert k !in rest;
      WithoutAbsent(rest, k);
      assert RemoveAt(s, 0) == rest;
    } else {
      assert k in rest;
      RemoveIsWithout(rest, k);
      assert RemoveAt(s, IndexOf(s, k)) == [s[0]] + RemoveAt(rest, IndexOf(rest, k));
    }
  }

  /** A found address stands first afterwards, the others keep their order, and nothing else changes; a lookup that
      finds nothing changes nothing. */
  lemma FoundStandsFirst(z: Zone, k: Key)
    requires z.Valid()
    ensures Touch(z, k) == if k in z.nodes then z.(lru := [k] + Without(z.lru, k)) else z
  {
    if k in z.nodes {
      RemoveIsWithout(z.lru, k);
    }
  }

  // ---- one hit ----

  lemma CountHitCounts(z: Zone, k: Key, now: int, p: Policy)
    requires k in z.nodes && 1 <= p.banTime && 0 <= now < p.timeMax && !IsBanned(z, k, now)
    ensures var after := CountHit(z, k, now, p); after.bans == z.bans + if IsBanned(after, k, now) then 1 else 0
  {
  }

  /** A hit issues a ban exactly when the address, not banned before, is banned after it; a hit that is dropped for
      want of memory issues none. */
  lemma BanCountedIffBanned(z: Zone, k: Key, now: int, p: Policy, memory: bool)
    requires z.Valid() && 1 <= p.banTime && 0 <= now < p.timeMax && !IsBanned(z, k, now)
    ensures var (after, counted) := Record(z, k, now, p, memory);
            && after.bans == z.bans + (if IsBanned(after, k, now) then 1 else 0)
            && (counted <==> k in z.nodes || memory) && (!counted ==> !IsBanned(after, k, now))
  {
    TouchKeepsNodes(z, k);
    var touched, c := Touch(z, k), Clock(now, p.window, p.timeMax);
    if k in z.nodes {
      CountHitCounts(touched, k, now, p);
    } else {
      ExpireDropsStale(touched, c);
      CountHitCounts(Insert(Expire(touched, c), k, now), k, now, p);
    }
  }

  /** The hits of a run after which the address is banned. */
  ghost function Armed(z: Zone, es: seq<Event>, p: Policy): nat
    requires z.Valid()
    decreases |es|
  {
    if es == [] then 0 else
      ZoneStepValid(z, es[0], p);
      var after := ZoneStep(z, es[0], p);
      (if es[0].Hit? && IsBanned(after, es[0].key, es[0].now) then 1 else 0) + Armed(after, es[1..], p)
  }

  /** The ban counter counts exactly the hits that banned someone. */
  lemma {:induction false} BansAreArmed(z: Zone, es: seq<Event>, p: Policy)
    requires z.Valid() && 1 <= p.banTime && Guarded(z, es, p)
    requires forall i :: 0 <= i < |es| ==> 0 <= es[i].now < p.timeMax
    ensures ZoneEnd(z, es, p).bans == z.bans + Armed(z, es, p)
    decreases |es|
  {
    if es != [] {
      ZoneStepValid(z, es[0], p);
      if es[0].Hit? {
        BanCountedIffBanned(z, es[0].key, es[0].now, p, true);
      } else {
        TouchKeepsNodes(z, es[0].key);
      }
      BansAreArmed(ZoneStep(z, es[0], p), es[1..], p);
    }
  }

  // ---- hits within one window ----

  function HitsOf(k: Key, es: seq<Event>): nat {
    if es == [] then 0 else HitsOf(k, es[..|es| - 1]) + if es[|es| - 1].Hit? && es[|es| - 1].key == k then 1 else 0
  }

  /** All events fall in the window that starts at `start`. */
  ghost predicate InWindow(es: seq<Event>, start: int, p: Policy) {
    0 <= start && forall i :: 0 <= i < |es| ==> start <= es[i].now < start + p.window && es[i].now < p.timeMax
  }

  lemma {:induction false} ZoneEndSnoc(z: Zone, es: seq<Event>, e: Event, p: Policy)
    requires z.Valid()
    ensures ZoneEnd(z, es + [e], p) == ZoneStep(ZoneEnd(z, es, p), e, p)
    decreases |es|
  {
    if es == [] {
      assert es + [e] == [e] && [e][1..] == [];
      ZoneStepValid(z, e, p);
    } else {
      assert (es + [e])[0] == es[0] && (es + [e])[1..] == es[1..] + [e];
      ZoneStepValid(z, es[0], p);
      ZoneEndSnoc(ZoneStep(z, es[0], p), es[1..], e, p);
    }
  }

  /** The address counts its hits in the window that its first one opened. */
  ghost predicate Counting(z: Zone, k: Key, start: int, hits: nat) {
    z.Valid() && k in z.nodes && z.nodes[k] == Node(start, 0, hits)
  }

  /** A hit at `start` opens a window: the address is untracked, or not banned with its window over or in the
      future. */
  predicate Opens(z: Zone, k: Key, start: int, p: Policy) {
    && 1 <= p.window
    && (k in z.nodes ==>
          var n := z.nodes[k];
          0 <= n.bannedUntil <= start && !(n.windowStart <= start < n.windowStart + p.window))
  }

  lemma FirstHit(z: Zone, k: Key, start: int, p: Policy)
    requires z.Valid() && Opens(z, k, start, p)
    ensures var after := Record(z, k, start, p, true).0;
            && k in after.nodes
            && after.nodes[k] == if p.count <= 1 then Node(start, AddClamp(start, p.banTime, p.timeMax), 0)
                                 else Node(start, 0, 1)
  {
    TouchKeepsNodes(z, k);
    if k !in z.nodes {
      ExpireDropsStale(Touch(z, k), Clock(start, p.window, p.timeMax));
    }
  }

  /** A ban that lapsed within its window is retired by the next hit, which counts in that window. */
  lemma LapsedBanRetired(z: Zone, k: Key, now: int, p: Policy)
    requires z.Valid() && k in z.nodes && 2 <= p.count
    requires z.nodes[k].hits == 0 && z.nodes[k].bannedUntil <= now
    requires z.nodes[k].windowStart <= now < z.nodes[k].windowStart + p.window
    ensures Counting(Record(z, k, now, p, true).0, k, z.nodes[k].windowStart, 1)
  {
    RecordPresent(z, k, now, p);
  }

  /** Other clients do not disturb the count: the node is live in its window, so no record evicts it. */
  lemma OthersKeepCount(z: Zone, e: Event, k: Key, start: int, hits: nat, p: Policy)
    requires Counting(z, k, start, hits) && InWindow([e], start, p) && (e.Ask? || e.key != k)
    ensures Counting(ZoneStep(z, e, p), k, start, hits)
  {
    ZoneStepValid(z, e, p);
    TouchKeepsNodes(z, e.key);
    assert start <= [e][0].now < start + p.window && [e][0].now < p.timeMax;
    if e.Hit? && e.key !in z.nodes {
      ExpireDropsStale(Touch(z, e.key), Clock(e.now, p.window, p.timeMax));
      assert Live(z.nodes[k], e.now, p.window, p.timeMax);
    }
  }

  lemma NextHit(z: Zone, k: Key, start: int, hits: nat, now: int, p: Policy)
    requires Counting(z, k, start, hits) && start <= now < start + p.window
    ensures var after := Record(z, k, now, p, true).0;
            && after.Valid() && k in after.nodes
            && after.nodes[k] == if hits + 1 >= p.count then Node(now, AddClamp(now, p.banTime, p.timeMax), 0)
                                 else Node(start, 0, hits + 1)
  {
    RecordPresent(z, k, now, p);
  }

  /** While an address stays under the threshold its node holds the number of its hits, whatever others do. */
  lemma {:induction false} WindowCounts(z: Zone, k: Key, start: int, es: seq<Event>, p: Policy)
    requires z.Valid() && Opens(z, k, start, p)
    requires es != [] && es[0] == Hit(k, start) && InWindow(es, start, p) && HitsOf(k, es) < p.count
    ensures Counting(ZoneEnd(z, es, p), k, start, HitsOf(k, es))
    decreases |es|
  {
    var n := |es| - 1;
    var e := es[n];
    assert es[..n] + [e] == es;
    ZoneEndSnoc(z, es[..n], e, p);
    ZoneStepValid(ZoneEnd(z, es[..n], p), e, p);
    if n == 0 {
      assert es[..0] == [];
      FirstHit(z, k, start, p);
    } else {
      assert es[..n][0] == es[0];
      WindowCounts(z, k, start, es[..n], p);
      var before := ZoneEnd(z, es[..n], p);
      if e.Hit? && e.key == k {
        NextHit(before, k, start, HitsOf(k, es[..n]), e.now, p);
      } else {
        OthersKeepCount(before, e, k, start, HitsOf(k, es[..n]), p);
      }
    }
  }

  /** Banned from now until `until`, and no longer. */
  ghost predicate BannedUntil(z: Zone, k: Key, until: int) {
    forall t :: IsBanned(z, k, t) <==> t < until
  }

  function Earlier(a: int, b: int): int {
    if a <= b then a else b
  }

  /** From the hit that opens a window, an address is not banned by fewer than `count` hits
      in it, and is banned by the hit that makes it `count`, for the ban time from that hit; what other clients do
      meanwhile makes no difference. */
  lemma {:induction false} BannedAtTheThreshold(z: Zone, k: Key, start: int, es: seq<Event>, p: Policy)
    requires z.Valid() && Opens(z, k, start, p) && 0 <= p.banTime
    requires es != [] && es[0] == Hit(k, start) && InWindow(es, start, p)
    ensures HitsOf(k, es) < p.count ==> forall t :: 0 <= t ==> !IsBanned(ZoneEnd(z, es, p), k, t)
    ensures var last := es[|es| - 1];
            last.Hit? && last.key == k && HitsOf(k, es) == p.count ==>
              BannedUntil(ZoneEnd(z, es, p), k, Earlier(last.now + p.banTime, p.timeMax))
  {
    if HitsOf(k, es) < p.count {
      WindowCounts(z, k, start, es, p);
    } else if HitsOf(k, es) == p.count && es[|es| - 1].Hit? && es[|es| - 1].key == k {
      LastHitArms(z, k, start, es, p);
    }
  }

  lemma {:induction false} LastHitArms(z: Zone, k: Key, start: int, es: seq<Event>, p: Policy)
    requires z.Valid() && Opens(z, k, start, p) && 0 <= p.banTime
    requires es != [] && es[0] == Hit(k, start) && InWindow(es, start, p)
    requires es[|es| - 1].Hit? && es[|es| - 1].key == k && HitsOf(k, es) == p.count
    ensures BannedUntil(ZoneEnd(z, es, p), k, Earlier(es[|es| - 1].now + p.banTime, p.timeMax))
  {
    var n := |es| - 1;
    assert es[..n] + [es[n]] == es;
    ZoneEndSnoc(z, es[..n], es[n], p);
    if n == 0 {
      assert es[..0] == [];
      FirstHit(z, k, start, p);
    } else {
      assert es[..n][0] == es[0];
      WindowCounts(z, k, start, es[..n], p);
      NextHit(ZoneEnd(z, es[..n], p), k, start, HitsOf(k, es[..n]), es[n].now, p);
    }
  }
}
