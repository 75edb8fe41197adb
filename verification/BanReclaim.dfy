/** Repeated eviction calls reclaim every stale node, whatever the cursor and however large the live cluster. */
module BanReclaim {
  import opened Sets
  import opened BanModel

  ghost function StaleKeys(z: Zone, c: Clock): set<Key> {
    set k | k in z.nodes && Stale(z.nodes[k], c)
  }

  /** Every node on the tail side of position `q` is live. */
  ghost predicate Clean(z: Zone, q: int, c: Clock)
    requires z.Valid() && -1 <= q
  {
    forall i :: q < i < |z.lru| ==> !Stale(z.nodes[z.lru[i]], c)
  }

  /** Visits left until one whole lap from tail to head is complete. */
  ghost function Visits(z: Zone, q: int, c: Clock): nat
    requires z.Valid() && -1 <= q < |z.lru|
  {
    if Clean(z, q, c) then q + 1 else q + 1 + |z.lru|
  }

  /** Remaining work: a visit costs one unit and a stale node eight, so a call's budget is worth 32. */
  ghost function Work(z: Zone, q: int, c: Clock): nat
    requires z.Valid() && -1 <= q < |z.lru|
  {
    Visits(z, q, c) + 8 * |StaleKeys(z, c)|
  }

  lemma CleanLap(z: Zone, c: Clock)
    requires z.Valid() && Clean(z, -1, c)
    ensures StaleKeys(z, c) == {}
  {
    forall k | k in z.nodes ensures !Stale(z.nodes[k], c) {
      var i :| 0 <= i < |z.lru| && z.lru[i] == k;
    }
  }

  /** Each visit is paid for: by progress along the lap, or by a stale node freed. */
  lemma TurnPays(w: Sweep, c: Clock)
    requires w.Valid() && !w.Done() && StaleKeys(w.zone, c) != {} && (w.wrapped ==> Clean(w.zone, w.q, c))
    ensures var v := Turn(w, c);
            && v.Valid() && (v.wrapped ==> Clean(v.zone, v.q, c))
            && Work(v.zone, v.q, c) + v.scanned + 8 * v.evicted <= Work(w.zone, w.q, c) + w.scanned + 8 * w.evicted
  {
    TurnValid(w, c);
    if w.q == -1 {
      if Clean(w.zone, -1, c) {
        CleanLap(w.zone, c);
      }
    } else {
      var k := w.zone.lru[w.q];
      if Stale(w.zone.nodes[k], c) {
        EvictPays(w.zone, w.q, c);
      } else {
        assert Clean(w.zone, w.q, c) <==> Clean(w.zone, w.q - 1, c);
      }
    }
  }

  lemma EvictValid(z: Zone, q: nat)
    requires z.Valid() && z.cursor.None? && q < |z.lru|
    ensures Evict(z, q).Valid()
  {
    RemoveAtParts(z.lru, q);
  }

  lemma EvictStale(z: Zone, q: nat, c: Clock)
    requires z.Valid() && q < |z.lru| && Stale(z.nodes[z.lru[q]], c)
    ensures |StaleKeys(Evict(z, q), c)| == |StaleKeys(z, c)| - 1
  {
    assert StaleKeys(Evict(z, q), c) == StaleKeys(z, c) - {z.lru[q]};
  }

  /** What stood beyond the evicted node has moved one place towards the head, unaltered. */
  lemma EvictShifts(z: Zone, q: nat, i: nat)
    requires z.Valid() && z.cursor.None? && q < i < |z.lru| && Evict(z, q).Valid()
    ensures i - 1 < |Evict(z, q).lru| && Evict(z, q).lru[i - 1] == z.lru[i]
    ensures Evict(z, q).nodes[z.lru[i]] == z.nodes[z.lru[i]]
  {
    assert z.lru[i] != z.lru[q];
  }

  lemma EvictClean(z: Zone, q: nat, c: Clock)
    requires z.Valid() && z.cursor.None? && q < |z.lru| && Evict(z, q).Valid()
    ensures Clean(z, q, c) <==> Clean(Evict(z, q), q - 1, c)
  {
    var e := Evict(z, q);
    assert |e.lru| == |z.lru| - 1;
    forall i | q < i < |z.lru|
      ensures e.lru[i - 1] == z.lru[i] && e.nodes[z.lru[i]] == z.nodes[z.lru[i]]
    {
      EvictShifts(z, q, i);
    }
    if Clean(e, q - 1, c) {
      forall i | q < i < |z.lru| ensures !Stale(z.nodes[z.lru[i]], c) {
        assert !Stale(e.nodes[e.lru[i - 1]], c);
      }
    }
    if Clean(z, q, c) {
      forall i | q - 1 < i < |e.lru| ensures !Stale(e.nodes[e.lru[i]], c) {
        assert e.lru[(i + 1) - 1] == z.lru[i + 1];
      }
    }
  }

  lemma EvictPays(z: Zone, q: nat, c: Clock)
    requires z.Valid() && z.cursor.None? && q < |z.lru| && Stale(z.nodes[z.lru[q]], c)
    ensures Evict(z, q).Valid() && (Clean(z, q, c) <==> Clean(Evict(z, q), q - 1, c))
    ensures |StaleKeys(Evict(z, q), c)| == |StaleKeys(z, c)| - 1
  {
    EvictValid(z, q);
    EvictStale(z, q, c);
    EvictClean(z, q, c);
  }

  lemma {:induction false} FinishPays(w: Sweep, c: Clock)
    requires w.Valid() && (w.wrapped ==> Clean(w.zone, w.q, c))
    ensures var v := Finish(w, c);
            && v.Valid() && v.Done()
            && (StaleKeys(v.zone, c) == {} ||
                (&& (v.wrapped ==> Clean(v.zone, v.q, c))
                 && Work(v.zone, v.q, c) + v.scanned + 8 * v.evicted
                    <= Work(w.zone, w.q, c) + w.scanned + 8 * w.evicted))
    decreases SCAN - w.scanned, if w.wrapped then 0 else 1
  {
    FinishValid(w, c);
    if !w.Done() {
      TurnValid(w, c);
      if StaleKeys(w.zone, c) == {} {
        FinishDropsStale(w, c);
        assert StaleKeys(Finish(w, c).zone, c) <= StaleKeys(w.zone, c);
      } else {
        TurnPays(w, c);
        FinishPays(Turn(w, c), c);
      }
    }
  }

  lemma {:induction false} IndexOfAt(s: seq<Key>, i: nat)
    requires i < |s| && Distinct(s)
    ensures IndexOf(s, s[i]) == i
  {
  }

  /** A call leaves no stale node, or uses up its whole budget. */
  lemma ExpirePays(z: Zone, c: Clock)
    requires z.Valid()
    ensures var r := Expire(z, c);
            && r.Valid()
            && (StaleKeys(r, c) == {} || Work(r, Position(r), c) + SCAN <= Work(z, Position(z), c))
  {
    ExpireDropsStale(z, c);
    var w := Begin(z);
    if StaleKeys(z, c) == {} {
      assert StaleKeys(Expire(z, c), c) <= StaleKeys(z, c);
    } else {
      BeginWork(z, c);
      FinishPays(w, c);
      var v := Finish(w, c);
      ParkWork(v.zone, v.q, c);
      if v.q == -1 && v.wrapped && StaleKeys(v.zone, c) != {} {
        CleanLap(v.zone, c);
      }
    }
  }

  lemma BeginWork(z: Zone, c: Clock)
    requires z.Valid() && StaleKeys(z, c) != {}
    ensures Begin(z).Valid() && (Begin(z).wrapped ==> Clean(Begin(z).zone, Begin(z).q, c))
    ensures Work(Begin(z).zone, Begin(z).q, c) <= Work(z, Position(z), c)
  {
    var w := Begin(z);
    assert StaleKeys(w.zone, c) == StaleKeys(z, c);
    if Position(z) == -1 {
      if Clean(z, -1, c) {
        CleanLap(z, c);
      }
    } else {
      assert Clean(w.zone, w.q, c) <==> Clean(z, w.q, c);
    }
  }

  lemma ParkWork(z: Zone, q: int, c: Clock)
    requires z.Valid() && -1 <= q < |z.lru|
    ensures Park(z, q).Valid() && Position(Park(z, q)) == q
    ensures StaleKeys(Park(z, q), c) == StaleKeys(z, c)
    ensures Work(Park(z, q), q, c) == Work(z, q, c)
  {
    if q >= 0 {
      IndexOfAt(z.lru, q);
      assert z.lru[q] in z.lru;
    }
    assert Clean(Park(z, q), q, c) <==> Clean(z, q, c);
  }

  /** `n` eviction calls with nothing in between. */
  ghost function Calls(z: Zone, c: Clock, n: nat): (r: Zone)
    requires z.Valid()
    ensures r.Valid()
    decreases n
  {
    if n == 0 then z else
      ExpireDropsStale(z, c);
      Calls(Expire(z, c), c, n - 1)
  }

  lemma {:induction false} CallsPay(z: Zone, c: Clock, n: nat)
    requires z.Valid() && (StaleKeys(z, c) == {} || Work(z, Position(z), c) <= SCAN * n)
    ensures StaleKeys(Calls(z, c, n), c) == {}
    decreases n
  {
    if n > 0 {
      ExpireDropsStale(z, c);
      ExpirePays(z, c);
      if StaleKeys(z, c) == {} {
        assert StaleKeys(Expire(z, c), c) <= StaleKeys(z, c);
      }
      CallsPay(Expire(z, c), c, n - 1);
    }
  }

  /** No call loses a live node or alters one. */
  lemma {:induction false} CallsKeepLive(z: Zone, c: Clock, n: nat, k: Key)
    requires z.Valid() && k in z.nodes && !Stale(z.nodes[k], c)
    ensures k in Calls(z, c, n).nodes && Calls(z, c, n).nodes[k] == z.nodes[k]
    decreases n
  {
    if n > 0 {
      ExpireDropsStale(z, c);
      CallsKeepLive(Expire(z, c), c, n - 1, k);
    }
  }

  /**
   * From any cursor, after n calls with 32 n >= 2 |nodes| + 8 |stale| exactly the live nodes are left.
   * In particular twice as many calls as there are nodes always suffice.
   */
  lemma ReclaimCompletes(z: Zone, c: Clock, n: nat)
    requires z.Valid() && (2 * |z.lru| + 8 * |StaleKeys(z, c)| <= SCAN * n || 2 * |z.lru| <= n)
    ensures forall k :: k in Calls(z, c, n).nodes <==> k in z.nodes && !Stale(z.nodes[k], c)
    ensures forall k :: k in Calls(z, c, n).nodes ==> Calls(z, c, n).nodes[k] == z.nodes[k]
  {
    StaleFewerThanNodes(z, c);
    CallsPay(z, c, n);
    var r := Calls(z, c, n);
    forall k | k in z.nodes && !Stale(z.nodes[k], c) ensures k in r.nodes && r.nodes[k] == z.nodes[k] {
      CallsKeepLive(z, c, n, k);
    }
    forall k | k in r.nodes ensures k in z.nodes && !Stale(z.nodes[k], c) && r.nodes[k] == z.nodes[k] {
      CallsUnchanged(z, c, n, k);
      assert k !in StaleKeys(r, c);
    }
  }

  lemma {:induction false} CallsUnchanged(z: Zone, c: Clock, n: nat, k: Key)
    requires z.Valid() && k in Calls(z, c, n).nodes
    ensures k in z.nodes && Calls(z, c, n).nodes[k] == z.nodes[k]
    decreases n
  {
    if n > 0 {
      ExpireDropsStale(z, c);
      CallsUnchanged(Expire(z, c), c, n - 1, k);
    }
  }

  lemma StaleFewerThanNodes(z: Zone, c: Clock)
    requires z.Valid()
    ensures |StaleKeys(z, c)| <= |z.lru|
  {
    DistinctSize(z.lru, z.nodes.Keys);
    SubsetSize(StaleKeys(z, c), z.nodes.Keys);
  }

  lemma {:induction false} DistinctSize(s: seq<Key>, keys: set<Key>)
    requires Distinct(s) && forall k :: k in s <==> k in keys
    ensures |keys| == |s|
    decreases |s|
  {
    if s == [] {
      assert keys == {};
    } else {
      assert s[0] in keys;
      forall k ensures k in s[1..] <==> k in keys - {s[0]} {
        if k in s && k != s[0] {
          var i :| 0 <= i < |s| && s[i] == k;
          assert s[1..][i - 1] == k;
        }
      }
      DistinctSize(s[1..], keys - {s[0]});
    }
  }
}
