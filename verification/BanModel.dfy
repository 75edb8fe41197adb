/**
 * The ban zone as a value: tracked addresses, their LRU order, the eviction cursor and the ban counter,
 * with the state change of each operation.
 */
module BanModel {
  import opened Options
  import opened Words

  /** A client address with the hash the tree is keyed on. */
  datatype Key = Key(hash: nat, addr: seq<Byte>)

  datatype Node = Node(windowStart: int, bannedUntil: int, hits: nat)

  /** `timeMax` is the largest time_t of the platform. */
  datatype Policy = Policy(count: nat, window: int, banTime: int, timeMax: int)

  /** `lru` runs from the most recently touched node to the tail; no cursor means "start at the tail". */
  datatype Zone = Zone(nodes: map<Key, Node>, lru: seq<Key>, cursor: Option<Key>, bans: nat) {

    /** Tree and queue hold the same nodes, once each, and the cursor is the sentinel or a queued node. */
    ghost predicate Valid() {
      && Distinct(lru)
      && (forall k :: k in lru <==> k in nodes)
      && (cursor.Some? ==> cursor.value in nodes)
    }
  }

  const SCAN := 32
  const EVICT := 4

  ghost predicate Distinct(s: seq<Key>) {
    forall i, j :: 0 <= i < j < |s| ==> s[i] != s[j]
  }

  const EmptyZone := Zone(map[], [], None, 0)

  /** `now + delta`, saturated at the largest time. */
  function AddClamp(now: int, delta: int, timeMax: int): (r: int)
    ensures now <= timeMax && 0 <= delta ==> now <= r <= timeMax && (r == now + delta || r == timeMax < now + delta)
  {
    if delta > timeMax - now then timeMax else now + delta
  }

  /** An armed node lives until its ban ends; a counting node lives for its window. */
  predicate Live(n: Node, now: int, window: int, timeMax: int) {
    || n.bannedUntil > now
    || (n.bannedUntil == 0 && now >= n.windowStart && AddClamp(n.windowStart, window, timeMax) > now)
  }

  function IndexOf(s: seq<Key>, k: Key): (i: int)
    ensures -1 <= i < |s|
    ensures i == -1 <==> k !in s
    ensures i >= 0 ==> s[i] == k
  {
    if s == [] then -1 else if s[0] == k then 0 else
      var i := IndexOf(s[1..], k);
      if i == -1 then -1 else i + 1
  }

  function RemoveAt(s: seq<Key>, i: nat): seq<Key>
    requires i < |s|
  {
    s[..i] + s[i + 1..]
  }

  /** Moving a found node to the head of the queue. */
  function Touch(z: Zone, k: Key): Zone {
    var i := IndexOf(z.lru, k);
    if i == -1 then z else z.(lru := [k] + RemoveAt(z.lru, i))
  }

  function Evict(z: Zone, q: nat): Zone
    requires q < |z.lru|
  {
    z.(nodes := z.nodes - {z.lru[q]}, lru := RemoveAt(z.lru, q))
  }

  /** Queue position of the cursor; -1 is the sentinel. */
  function Position(z: Zone): (q: int)
    ensures -1 <= q < |z.lru|
  {
    match z.cursor
    case None => -1
    case Some(k) => IndexOf(z.lru, k)
  }

  function Park(z: Zone, q: int): Zone
    requires -1 <= q < |z.lru|
  {
    z.(cursor := if q == -1 then None else Some(z.lru[q]))
  }

  /** Time and policy as the eviction pass sees them. */
  datatype Clock = Clock(now: int, window: int, timeMax: int)

  predicate Stale(n: Node, c: Clock) {
    !Live(n, c.now, c.window, c.timeMax)
  }

  /** An eviction walk in progress, at queue position `q` (-1: past the head) with the budgets spent so far. */
  datatype Sweep = Sweep(zone: Zone, q: int, scanned: nat, evicted: nat, wrapped: bool) {
    ghost predicate Valid() {
      && zone.Valid() && zone.cursor.None?
      && -1 <= q < |zone.lru| && scanned <= SCAN && evicted <= EVICT
    }

    predicate Done() {
      scanned >= SCAN || evicted >= EVICT || (q == -1 && wrapped)
    }
  }

  /** One turn of the loop: wrap to the tail once, skip a live node, or free a stale one. */
  function Turn(w: Sweep, c: Clock): Sweep
    requires -1 <= w.q < |w.zone.lru| && (w.q >= 0 ==> w.zone.lru[w.q] in w.zone.nodes)
  {
    if w.q == -1 then w.(q := |w.zone.lru| - 1, wrapped := true)
    else if Stale(w.zone.nodes[w.zone.lru[w.q]], c) then
      w.(zone := Evict(w.zone, w.q), q := w.q - 1, scanned := w.scanned + 1, evicted := w.evicted + 1)
    else w.(q := w.q - 1, scanned := w.scanned + 1)
  }

  lemma TurnValid(w: Sweep, c: Clock)
    requires w.Valid() && !w.Done()
    ensures Turn(w, c).Valid()
  {
    if w.q != -1 {
      RemoveAtParts(w.zone.lru, w.q);
    }
  }

  /** Run the walk to its end. */
  ghost function Finish(w: Sweep, c: Clock): Sweep
    requires w.Valid()
    decreases SCAN - w.scanned, if w.wrapped then 0 else 1
  {
    if w.Done() then w else
      TurnValid(w, c);
      Finish(Turn(w, c), c)
  }

  /** Resume at the cursor, or at the tail when it is the sentinel. */
  function Begin(z: Zone): Sweep {
    var q := Position(z);
    var open := z.(cursor := None);
    if q == -1 then Sweep(open, |z.lru| - 1, 0, 0, true) else Sweep(open, q, 0, 0, false)
  }

  /** One eviction call. */
  ghost function Expire(z: Zone, c: Clock): Zone
    requires z.Valid()
  {
    var w := Finish(Begin(z), c);
    FinishValid(Begin(z), c);
    Park(w.zone, w.q)
  }

  /** What one recorded hit does to a node, and whether it arms a ban. */
  function Bump(n: Node, now: int, p: Policy): (Node, bool) {
    var a := if n.bannedUntil != 0 && n.bannedUntil <= now then n.(bannedUntil := 0) else n;
    var b := if now < a.windowStart || now - a.windowStart >= p.window then a.(windowStart := now, hits := 0) else a;
    if b.hits + 1 >= p.count then (Node(now, AddClamp(now, p.banTime, p.timeMax), 0), true)
    else (b.(hits := b.hits + 1), false)
  }

  function Fresh(now: int): Node {
    Node(now, 0, 0)
  }

  /** Count the hit on a node that is present. */
  function CountHit(z: Zone, k: Key, now: int, p: Policy): Zone
    requires k in z.nodes
  {
    var (n, armed) := Bump(z.nodes[k], now, p);
    z.(nodes := z.nodes[k := n], bans := z.bans + if armed then 1 else 0)
  }

  function Insert(z: Zone, k: Key, now: int): Zone {
    z.(nodes := z.nodes[k := Fresh(now)], lru := [k] + z.lru)
  }

  /** Record one hit; a failed allocation drops it after the eviction pass. */
  ghost function Record(z: Zone, k: Key, now: int, p: Policy, memory: bool): (Zone, bool)
    requires z.Valid()
  {
    var t := Touch(z, k);
    TouchValid(z, k);
    if k in t.nodes then (CountHit(t, k, now, p), true) else
      var e := Expire(t, Clock(now, p.window, p.timeMax));
      if !memory then (e, false) else (CountHit(Insert(e, k, now), k, now, p), true)
  }

  function IsBanned(z: Zone, k: Key, now: int): bool {
    k in z.nodes && z.nodes[k].bannedUntil > now
  }

  // ---- every operation keeps the zone valid ----

  lemma RemoveAtParts(s: seq<Key>, i: nat)
    requires i < |s| && Distinct(s)
    ensures Distinct(RemoveAt(s, i))
    ensures forall k :: k in RemoveAt(s, i) <==> k in s && k != s[i]
  {
    var r := RemoveAt(s, i);
    forall k | k in s && k != s[i] ensures k in r {
      var j :| 0 <= j < |s| && s[j] == k;
      assert r[if j < i then j else j - 1] == k;
    }
  }

  lemma TouchValid(z: Zone, k: Key)
    requires z.Valid()
    ensures Touch(z, k).Valid()
  {
    var i := IndexOf(z.lru, k);
    if i != -1 {
      RemoveAtParts(z.lru, i);
      var r := RemoveAt(z.lru, i);
      assert forall x :: x in [k] + r <==> x == k || x in r;
    }
  }

  lemma {:induction false} FinishValid(w: Sweep, c: Clock)
    requires w.Valid()
    ensures Finish(w, c).Valid() && Finish(w, c).Done()
    decreases SCAN - w.scanned, if w.wrapped then 0 else 1
  {
    if !w.Done() {
      TurnValid(w, c);
      FinishValid(Turn(w, c), c);
    }
  }

  /** What a walk may have done between two points: dropped stale nodes, one per eviction, and nothing else. */
  ghost predicate DroppedStale(v: Sweep, w: Sweep, c: Clock) {
    && (forall k :: k in w.zone.nodes ==> k in v.zone.nodes && w.zone.nodes[k] == v.zone.nodes[k])
    && (forall k :: k in v.zone.nodes && k !in w.zone.nodes ==> Stale(v.zone.nodes[k], c))
    && v.evicted <= w.evicted && |v.zone.nodes| + v.evicted == |w.zone.nodes| + w.evicted
    && w.zone.bans == v.zone.bans
  }

  lemma TurnDropsStale(w: Sweep, c: Clock)
    requires w.Valid() && !w.Done()
    ensures DroppedStale(w, Turn(w, c), c)
  {
    if w.q != -1 && Stale(w.zone.nodes[w.zone.lru[w.q]], c) {
      assert Turn(w, c).zone.nodes.Keys == w.zone.nodes.Keys - {w.zone.lru[w.q]};
    }
  }

  lemma {:induction false} FinishDropsStale(w: Sweep, c: Clock)
    requires w.Valid()
    ensures DroppedStale(w, Finish(w, c), c)
    decreases SCAN - w.scanned, if w.wrapped then 0 else 1
  {
    if !w.Done() {
      TurnValid(w, c);
      TurnDropsStale(w, c);
      FinishDropsStale(Turn(w, c), c);
    }
  }

  /** An eviction call keeps the zone valid, frees only stale nodes, and at most four of them. */
  lemma ExpireDropsStale(z: Zone, c: Clock)
    requires z.Valid()
    ensures var r := Expire(z, c);
            && r.Valid() && r.bans == z.bans
            && (forall k :: k in r.nodes ==> k in z.nodes && r.nodes[k] == z.nodes[k])
            && (forall k :: k in z.nodes && k !in r.nodes ==> Stale(z.nodes[k], c))
            && |r.nodes| <= |z.nodes| <= |r.nodes| + EVICT
  {
    FinishValid(Begin(z), c);
    FinishDropsStale(Begin(z), c);
  }

  lemma RecordValid(z: Zone, k: Key, now: int, p: Policy, memory: bool)
    requires z.Valid()
    ensures Record(z, k, now, p, memory).0.Valid()
  {
    TouchValid(z, k);
    var t := Touch(z, k);
    if k !in t.nodes {
      var c := Clock(now, p.window, p.timeMax);
      ExpireDropsStale(t, c);
      assert forall x :: x in [k] + Expire(t, c).lru <==> x == k || x in Expire(t, c).lru;
    }
  }
}
