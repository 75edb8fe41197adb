/** Bounded eviction cannot be observed: the zone answers like a table that never forgets. */
module BanEviction {
  import opened BanModel

  /** The reference: every address ever recorded, never evicted. */
  datatype Ledger = Ledger(nodes: map<Key, Node>, bans: nat)

  const EmptyLedger := Ledger(map[], 0)

  function LedgerRecord(u: Ledger, k: Key, now: int, p: Policy): Ledger {
    var (n, armed) := Bump(if k in u.nodes then u.nodes[k] else Fresh(now), now, p);
    Ledger(u.nodes[k := n], u.bans + if armed then 1 else 0)
  }

  predicate LedgerBanned(u: Ledger, k: Key, now: int) {
    k in u.nodes && u.nodes[k].bannedUntil > now
  }

  /** What requests do to the engine: the banned check, and recording a hit. */
  datatype Event = Ask(key: Key, now: int) | Hit(key: Key, now: int)

  /** The clock never runs back and stays below the largest time; hits come from clients not banned. */
  ghost predicate Admissible(u: Ledger, es: seq<Event>, last: int, p: Policy)
    decreases |es|
  {
    es == [] ||
    (&& 0 <= last <= es[0].now < p.timeMax
     && (es[0].Hit? ==> !LedgerBanned(u, es[0].key, es[0].now))
     && Admissible(LedgerStep(u, es[0], p), es[1..], es[0].now, p))
  }

  function LedgerStep(u: Ledger, e: Event, p: Policy): Ledger {
    if e.Ask? then u else LedgerRecord(u, e.key, e.now, p)
  }

  /** The engine's step; allocation always succeeds. */
  ghost function ZoneStep(z: Zone, e: Event, p: Policy): Zone
    requires z.Valid()
  {
    if e.Ask? then Touch(z, e.key) else Record(z, e.key, e.now, p, true).0
  }

  lemma ZoneStepValid(z: Zone, e: Event, p: Policy)
    requires z.Valid()
    ensures ZoneStep(z, e, p).Valid()
  {
    TouchValid(z, e.key);
    RecordValid(z, e.key, e.now, p, true);
  }

  ghost function LedgerEnd(u: Ledger, es: seq<Event>, p: Policy): Ledger
    decreases |es|
  {
    if es == [] then u else LedgerEnd(LedgerStep(u, es[0], p), es[1..], p)
  }

  ghost function ZoneEnd(z: Zone, es: seq<Event>, p: Policy): (r: Zone)
    requires z.Valid()
    ensures r.Valid()
    decreases |es|
  {
    if es == [] then z else
      ZoneStepValid(z, es[0], p);
      ZoneEnd(ZoneStep(z, es[0], p), es[1..], p)
  }

  /** The answers given to the banned checks of a run, in order. */
  ghost function LedgerAnswers(u: Ledger, es: seq<Event>, p: Policy): seq<bool>
    decreases |es|
  {
    if es == [] then [] else
      (if es[0].Ask? then [LedgerBanned(u, es[0].key, es[0].now)] else [])
      + LedgerAnswers(LedgerStep(u, es[0], p), es[1..], p)
  }

  ghost function ZoneAnswers(z: Zone, es: seq<Event>, p: Policy): seq<bool>
    requires z.Valid()
    decreases |es|
  {
    if es == [] then [] else
      ZoneStepValid(z, es[0], p);
      (if es[0].Ask? then [IsBanned(z, es[0].key, es[0].now)] else [])
      + ZoneAnswers(ZoneStep(z, es[0], p), es[1..], p)
  }

  /** A caller can check this before deploying a policy. */
  predicate Safe(p: Policy) {
    p.count <= 1 || p.window <= p.banTime || p.timeMax <= p.window
  }

  /** Hits come from clients that the zone itself does not ban, as the handler asks it. */
  ghost predicate Guarded(z: Zone, es: seq<Event>, p: Policy)
    requires z.Valid()
    decreases |es|
  {
    es == [] ||
    (ZoneStepValid(z, es[0], p);
     && (es[0].Hit? ==> !IsBanned(z, es[0].key, es[0].now))
     && Guarded(ZoneStep(z, es[0], p), es[1..], p))
  }

  // ---- the relation between ledger and zone ----

  /** An armed node has its counter reset, and its window starts when it was armed. */
  ghost predicate NodeOk(n: Node, t: int, p: Policy) {
    && 0 <= n.windowStart <= t
    && (n.bannedUntil != 0 ==> n.hits == 0 && n.bannedUntil == AddClamp(n.windowStart, p.banTime, p.timeMax))
  }

  ghost predicate SameNode(a: Node, b: Node, p: Policy) {
    a.bannedUntil == b.bannedUntil && a.hits == b.hits && (a.windowStart == b.windowStart || p.timeMax <= p.window)
  }

  /** A node whose loss changes nothing: the next hit treats it like a new one. */
  ghost predicate Forgettable(n: Node, t: int, p: Policy) {
    && n.bannedUntil <= t
    && (p.count <= 1 || t - n.windowStart >= p.window || (p.timeMax <= p.window && n.hits == 0))
  }

  ghost predicate Related(u: Ledger, z: Zone, t: int, p: Policy) {
    && u.bans == z.bans
    && (forall k :: k in u.nodes ==> NodeOk(u.nodes[k], t, p))
    && (forall k :: k in z.nodes ==> k in u.nodes && NodeOk(z.nodes[k], t, p) && SameNode(u.nodes[k], z.nodes[k], p))
    && (forall k :: k in u.nodes && k !in z.nodes ==> Forgettable(u.nodes[k], t, p))
  }

  ghost predicate Usable(p: Policy) {
    1 <= p.window && 0 <= p.banTime
  }

  lemma StaleIsForgettable(a: Node, b: Node, now: int, p: Policy)
    requires Usable(p) && Safe(p) && 0 <= now < p.timeMax
    requires NodeOk(a, now, p) && NodeOk(b, now, p) && SameNode(a, b, p)
    requires Stale(b, Clock(now, p.window, p.timeMax))
    ensures Forgettable(a, now, p)
  {
  }

  lemma BumpSame(a: Node, b: Node, now: int, p: Policy)
    requires Usable(p) && 0 <= now < p.timeMax && NodeOk(a, now, p) && NodeOk(b, now, p) && SameNode(a, b, p)
    requires a.bannedUntil <= now
    ensures Bump(a, now, p).1 == Bump(b, now, p).1 && SameNode(Bump(a, now, p).0, Bump(b, now, p).0, p)
    ensures NodeOk(Bump(a, now, p).0, now, p) && NodeOk(Bump(b, now, p).0, now, p)
  {
  }

  lemma BumpForgotten(a: Node, now: int, p: Policy)
    requires Usable(p) && 0 <= now < p.timeMax && NodeOk(a, now, p) && Forgettable(a, now, p)
    ensures Bump(a, now, p).1 == Bump(Fresh(now), now, p).1
    ensures SameNode(Bump(a, now, p).0, Bump(Fresh(now), now, p).0, p)
    ensures NodeOk(Bump(a, now, p).0, now, p) && NodeOk(Bump(Fresh(now), now, p).0, now, p)
  {
  }

  lemma RelatedLater(u: Ledger, z: Zone, t: int, now: int, p: Policy)
    requires Related(u, z, t, p) && t <= now
    ensures Related(u, z, now, p)
  {
  }

  lemma TouchKeepsNodes(z: Zone, k: Key)
    requires z.Valid()
    ensures Touch(z, k).nodes == z.nodes && Touch(z, k).bans == z.bans && Touch(z, k).Valid()
  {
    TouchValid(z, k);
  }

  lemma ExpireRelated(u: Ledger, z: Zone, now: int, p: Policy)
    requires z.Valid() && Usable(p) && Safe(p) && 0 <= now < p.timeMax && Related(u, z, now, p)
    ensures Related(u, Expire(z, Clock(now, p.window, p.timeMax)), now, p)
  {
    var c := Clock(now, p.window, p.timeMax);
    ExpireDropsStale(z, c);
    var e := Expire(z, c);
    forall k | k in u.nodes && k !in e.nodes ensures Forgettable(u.nodes[k], now, p) {
      if k in z.nodes {
        StaleIsForgettable(u.nodes[k], z.nodes[k], now, p);
      }
    }
  }

  lemma PresentHit(u: Ledger, z: Zone, k: Key, now: int, p: Policy)
    requires Usable(p) && 0 <= now < p.timeMax && Related(u, z, now, p) && !LedgerBanned(u, k, now) && k in z.nodes
    ensures Related(LedgerRecord(u, k, now, p), CountHit(z, k, now, p), now, p)
  {
    BumpSame(u.nodes[k], z.nodes[k], now, p);
  }

  lemma AbsentHit(u: Ledger, z: Zone, k: Key, now: int, p: Policy)
    requires Usable(p) && 0 <= now < p.timeMax && Related(u, z, now, p) && !LedgerBanned(u, k, now) && k !in z.nodes
    ensures Related(LedgerRecord(u, k, now, p), CountHit(Insert(z, k, now), k, now, p), now, p)
  {
    if k in u.nodes {
      BumpForgotten(u.nodes[k], now, p);
    } else {
      BumpSame(Fresh(now), Fresh(now), now, p);
    }
  }

  lemma StepRelated(u: Ledger, z: Zone, e: Event, t: int, p: Policy)
    requires z.Valid() && Usable(p) && Safe(p) && Related(u, z, t, p) && 0 <= t <= e.now < p.timeMax
    requires e.Hit? ==> !LedgerBanned(u, e.key, e.now)
    ensures Related(LedgerStep(u, e, p), ZoneStep(z, e, p), e.now, p)
    ensures e.Ask? ==> LedgerBanned(u, e.key, e.now) == IsBanned(z, e.key, e.now)
  {
    TouchKeepsNodes(z, e.key);
    RelatedLater(u, z, t, e.now, p);
    if e.Hit? {
      var touched := Touch(z, e.key);
      if e.key in z.nodes {
        PresentHit(u, touched, e.key, e.now, p);
      } else {
        var c := Clock(e.now, p.window, p.timeMax);
        ExpireRelated(u, touched, e.now, p);
        ExpireDropsStale(touched, c);
        AbsentHit(u, Expire(touched, c), e.key, e.now, p);
      }
    }
  }

  lemma {:induction false} RunRelated(u: Ledger, z: Zone, es: seq<Event>, t: int, p: Policy)
    requires z.Valid() && Usable(p) && Safe(p) && 0 <= t && Related(u, z, t, p) && Admissible(u, es, t, p)
    ensures ZoneAnswers(z, es, p) == LedgerAnswers(u, es, p)
    ensures ZoneEnd(z, es, p).bans == LedgerEnd(u, es, p).bans
    decreases |es|
  {
    if es != [] {
      ZoneStepValid(z, es[0], p);
      StepRelated(u, z, es[0], t, p);
      RunRelated(LedgerStep(u, es[0], p), ZoneStep(z, es[0], p), es[1..], es[0].now, p);
    }
  }

  /** The zone gives the answers and the ban count of the ledger on this run. */
  ghost predicate Indistinguishable(es: seq<Event>, p: Policy) {
    && ZoneAnswers(EmptyZone, es, p) == LedgerAnswers(EmptyLedger, es, p)
    && ZoneEnd(EmptyZone, es, p).bans == LedgerEnd(EmptyLedger, es, p).bans
  }

  /** Under a safe policy no admissible run shows a difference. */
  lemma EvictionIsInvisible(es: seq<Event>, p: Policy)
    requires Usable(p) && Safe(p) && Admissible(EmptyLedger, es, 0, p)
    ensures Indistinguishable(es, p)
  {
    RunRelated(EmptyLedger, EmptyZone, es, 0, p);
  }

  // ---- the converse: an unsafe policy can be told apart ----

  const Repeat := Key(0, [0])
  const Other := Key(1, [1])

  ghost function Hits(k: Key, now: int, n: nat, rest: seq<Event>): seq<Event> {
    if n == 0 then rest else [Hit(k, now)] + Hits(k, now, n - 1, rest)
  }

  /** From these states the rest of the run is admissible, to both, and is answered differently. */
  ghost predicate Diverges(u: Ledger, z: Zone, es: seq<Event>, last: int, p: Policy) {
    && z.Valid() && Admissible(u, es, last, p) && Guarded(z, es, p)
    && ZoneAnswers(z, es, p) != LedgerAnswers(u, es, p)
  }

  lemma DivergesAfterHit(u: Ledger, z: Zone, k: Key, now: int, rest: seq<Event>, last: int, p: Policy)
    requires z.Valid() && 0 <= last <= now < p.timeMax && !LedgerBanned(u, k, now) && !IsBanned(z, k, now)
    requires Diverges(LedgerRecord(u, k, now, p), Record(z, k, now, p, true).0, rest, now, p)
    ensures Diverges(u, z, [Hit(k, now)] + rest, last, p)
  {
    var es := [Hit(k, now)] + rest;
    assert es[0] == Hit(k, now) && es[1..] == rest;
    ZoneStepValid(z, es[0], p);
    assert LedgerAnswers(u, es, p) == LedgerAnswers(LedgerStep(u, es[0], p), rest, p);
    assert ZoneAnswers(z, es, p) == ZoneAnswers(ZoneStep(z, es[0], p), rest, p);
  }

  /** A hit on a tracked address only changes its node. */
  lemma RecordPresent(z: Zone, k: Key, now: int, p: Policy)
    requires z.Valid() && k in z.nodes
    ensures Record(z, k, now, p, true).0.Valid()
    ensures Record(z, k, now, p, true).0.nodes == z.nodes[k := Bump(z.nodes[k], now, p).0]
  {
    TouchKeepsNodes(z, k);
    RecordValid(z, k, now, p, true);
  }

  ghost predicate Unsafe(p: Policy) {
    2 <= p.count && 1 <= p.banTime < p.window < p.timeMax
  }

  ghost function Ending(p: Policy): seq<Event> {
    [Hit(Repeat, p.window), Ask(Repeat, p.window)]
  }

  lemma AskDiverges(u: Ledger, z: Zone, k: Key, now: int, p: Policy)
    requires z.Valid() && 0 <= now < p.timeMax && IsBanned(z, k, now) && !LedgerBanned(u, k, now)
    ensures Diverges(u, z, [Ask(k, now)], now, p)
  {
    var ask := [Ask(k, now)];
    assert ask[1..] == [];
    ZoneStepValid(z, ask[0], p);
    assert Admissible(u, [], now, p) && Guarded(ZoneStep(z, ask[0], p), [], p);
    assert ZoneAnswers(z, ask, p)[0] && !LedgerAnswers(u, ask, p)[0];
  }

  /** The ledger's window has run out by then; the evicted copy's has not, so only it arms a ban. */
  lemma EndingDiverges(u: Ledger, z: Zone, p: Policy)
    requires Unsafe(p) && z.Valid() && Repeat in u.nodes && Repeat in z.nodes
    requires u.nodes[Repeat] == Node(0, 0, p.count - 1) && z.nodes[Repeat] == Node(p.banTime, 0, p.count - 1)
    ensures Diverges(u, z, Ending(p), p.banTime, p)
  {
    TouchKeepsNodes(z, Repeat);
    var z' := Record(z, Repeat, p.window, p, true).0;
    var u' := LedgerRecord(u, Repeat, p.window, p);
    RecordValid(z, Repeat, p.window, p, true);
    assert IsBanned(z', Repeat, p.window) && !LedgerBanned(u', Repeat, p.window);
    AskDiverges(u', z', Repeat, p.window, p);
    DivergesAfterHit(u, z, Repeat, p.window, [Ask(Repeat, p.window)], p.banTime, p);
    assert Ending(p) == [Hit(Repeat, p.window)] + [Ask(Repeat, p.window)];
  }

  lemma {:induction false} CountingDiverges(u: Ledger, z: Zone, h: nat, n: nat, p: Policy)
    requires Unsafe(p) && z.Valid() && Repeat in u.nodes && Repeat in z.nodes && h + n == p.count - 1
    requires u.nodes[Repeat] == Node(0, 0, h) && z.nodes[Repeat] == Node(p.banTime, 0, h)
    ensures Diverges(u, z, Hits(Repeat, p.banTime, n, Ending(p)), p.banTime, p)
    decreases n
  {
    if n == 0 {
      EndingDiverges(u, z, p);
    } else {
      RecordPresent(z, Repeat, p.banTime, p);
      var u', z' := LedgerRecord(u, Repeat, p.banTime, p), Record(z, Repeat, p.banTime, p, true).0;
      CountingDiverges(u', z', h + 1, n - 1, p);
      DivergesAfterHit(u, z, Repeat, p.banTime, Hits(Repeat, p.banTime, n - 1, Ending(p)), p.banTime, p);
    }
  }

  /** The address returns after its node was evicted: the two copies now count in different windows. */
  lemma ReturnDiverges(u: Ledger, z: Zone, p: Policy)
    requires Unsafe(p) && z.Valid() && Repeat in u.nodes && Repeat !in z.nodes
    requires u.nodes[Repeat] == Node(0, p.banTime, 0)
    ensures Diverges(u, z, Hits(Repeat, p.banTime, p.count - 1, Ending(p)), p.banTime, p)
  {
    TouchKeepsNodes(z, Repeat);
    RecordValid(z, Repeat, p.banTime, p, true);
    CountingDiverges(LedgerRecord(u, Repeat, p.banTime, p), Record(z, Repeat, p.banTime, p, true).0, 1, p.count - 2, p);
    DivergesAfterHit(u, z, Repeat, p.banTime, Hits(Repeat, p.banTime, p.count - 2, Ending(p)), p.banTime, p);
  }

  lemma LoneStaleNodeEvicted(z: Zone, c: Clock)
    requires z.Valid() && z.lru == [Repeat] && z.cursor.None? && Stale(z.nodes[Repeat], c)
    ensures Repeat !in Expire(z, c).nodes
  {
    var w := Begin(z);
    TurnValid(w, c);
    assert Turn(w, c).Done();
    assert Finish(Turn(w, c), c) == Turn(w, c);
  }

  /** A second address arrives as the ban lapses, and its record evicts the first one's node. */
  lemma EvictDiverges(u: Ledger, z: Zone, p: Policy)
    requires Unsafe(p) && z.Valid() && z.lru == [Repeat] && z.cursor.None?
    requires u.nodes == z.nodes && u.nodes[Repeat] == Node(0, p.banTime, 0)
    ensures Diverges(u, z, [Hit(Other, p.banTime)] + Hits(Repeat, p.banTime, p.count - 1, Ending(p)), 0, p)
  {
    assert Other !in z.lru && IndexOf(z.lru, Other) == -1;
    LoneStaleNodeEvicted(z, Clock(p.banTime, p.window, p.timeMax));
    RecordValid(z, Other, p.banTime, p, true);
    ReturnDiverges(LedgerRecord(u, Other, p.banTime, p), Record(z, Other, p.banTime, p, true).0, p);
    DivergesAfterHit(u, z, Other, p.banTime, Hits(Repeat, p.banTime, p.count - 1, Ending(p)), 0, p);
  }

  ghost function Witness(p: Policy): seq<Event>
    requires p.count >= 1
  {
    [Hit(Other, p.banTime)] + Hits(Repeat, p.banTime, p.count - 1, Ending(p))
  }

  /** One opening hit: the ledger and the zone keep the same single node. */
  lemma OpeningHit(u: Ledger, z: Zone, p: Policy)
    requires Unsafe(p) && z.Valid() && z.lru == [Repeat] && z.cursor.None? && u.nodes == z.nodes
    ensures var z' := Record(z, Repeat, 0, p, true).0;
            && z'.Valid() && z'.lru == [Repeat] && z'.cursor.None?
            && z'.nodes == LedgerRecord(u, Repeat, 0, p).nodes == z.nodes[Repeat := Bump(z.nodes[Repeat], 0, p).0]
  {
    TouchKeepsNodes(z, Repeat);
    RecordValid(z, Repeat, 0, p, true);
    assert Record(z, Repeat, 0, p, true).0.lru == [Repeat];
  }

  /** The opening hits arm the ban in both. */
  lemma {:induction false} OpeningDiverges(u: Ledger, z: Zone, h: nat, n: nat, p: Policy)
    requires Unsafe(p) && z.Valid() && z.lru == [Repeat] && z.cursor.None? && h + n == p.count && n > 0
    requires u.nodes == z.nodes && u.nodes[Repeat] == Node(0, 0, h)
    ensures Diverges(u, z, Hits(Repeat, 0, n, Witness(p)), 0, p)
    decreases n
  {
    OpeningHit(u, z, p);
    var z' := Record(z, Repeat, 0, p, true).0;
    if n == 1 {
      EvictDiverges(LedgerRecord(u, Repeat, 0, p), z', p);
    } else {
      OpeningDiverges(LedgerRecord(u, Repeat, 0, p), z', h + 1, n - 1, p);
    }
    DivergesAfterHit(u, z, Repeat, 0, Hits(Repeat, 0, n - 1, Witness(p)), 0, p);
  }

  /** Every unsafe policy has a run on which eviction shows. */
  lemma UnsafeIsVisible(p: Policy)
    requires Unsafe(p)
    ensures Admissible(EmptyLedger, Hits(Repeat, 0, p.count, Witness(p)), 0, p)
    ensures Guarded(EmptyZone, Hits(Repeat, 0, p.count, Witness(p)), p)
    ensures !Indistinguishable(Hits(Repeat, 0, p.count, Witness(p)), p)
  {
    var c := Clock(0, p.window, p.timeMax);
    assert Begin(EmptyZone).Done();
    assert Expire(EmptyZone, c) == EmptyZone;
    RecordValid(EmptyZone, Repeat, 0, p, true);
    var z := Record(EmptyZone, Repeat, 0, p, true).0;
    OpeningDiverges(LedgerRecord(EmptyLedger, Repeat, 0, p), z, 1, p.count - 1, p);
    DivergesAfterHit(EmptyLedger, EmptyZone, Repeat, 0, Hits(Repeat, 0, p.count - 1, Witness(p)), 0, p);
  }

  /** Eviction is invisible on every admissible run exactly under a safe policy, also if the zone alone decides who
      may hit. */
  lemma InvisibleIffSafe(p: Policy)
    requires 1 <= p.window && 1 <= p.banTime
    ensures (forall es :: Admissible(EmptyLedger, es, 0, p) ==> Indistinguishable(es, p)) <==> Safe(p)
    ensures (forall es :: Admissible(EmptyLedger, es, 0, p) && Guarded(EmptyZone, es, p) ==> Indistinguishable(es, p))
            <==> Safe(p)
  {
    if Safe(p) {
      forall es | Admissible(EmptyLedger, es, 0, p) ensures Indistinguishable(es, p) {
        EvictionIsInvisible(es, p);
      }
    } else {
      UnsafeIsVisible(p);
    }
  }
}
