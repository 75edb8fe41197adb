/** The resumable maintenance and scheduler batches: at most 256 jobs a call, in id order, cyclically. */
module Batches {

  /** How many of the sorted `ids` are at or below the cursor; -1 is the empty cursor. */
  function CountUpTo(ids: seq<nat>, cursor: int): (p: nat)
    ensures p <= |ids|
  {
    if ids == [] || ids[0] > cursor then 0 else 1 + CountUpTo(ids[1..], cursor)
  }

  /** Strictly increasing, as the primary key order returns them. */
  ghost predicate Sorted(ids: seq<nat>) {
    |ids| >= 2 ==> ids[0] < ids[1] && Sorted(ids[1..])
  }

  lemma {:induction false} HeadIsLeast(ids: seq<nat>, i: nat)
    requires Sorted(ids) && 0 < i < |ids|
    ensures ids[0] < ids[i]
  {
    if i > 1 {
      HeadIsLeast(ids[1..], i - 1);
    }
  }

  lemma {:induction false} CountUpToSplits(ids: seq<nat>, cursor: int)
    requires Sorted(ids)
    ensures var p := CountUpTo(ids, cursor);
            (forall i :: 0 <= i < p ==> ids[i] <= cursor) && (forall i :: p <= i < |ids| ==> ids[i] > cursor)
  {
    if ids != [] {
      if ids[0] <= cursor {
        CountUpToSplits(ids[1..], cursor);
      }
      forall i | 0 < i < |ids| ensures ids[0] < ids[i] {
        HeadIsLeast(ids, i);
      }
    }
  }

  function Take(s: seq<nat>): (r: seq<nat>)
    ensures r <= s && |r| <= 256
  {
    if |s| <= 256 then s else s[..256]
  }

  /** One call: the next batch above the cursor, wrapping to the start inside the same call. */
  function Batch(ids: seq<nat>, cursor: int): (seq<nat>, int) {
    var above := Take(ids[CountUpTo(ids, cursor)..]);
    var jobs := if above == [] && cursor != -1 then Take(ids) else above;
    if jobs == [] then ([], -1) else (jobs, jobs[|jobs| - 1])
  }

  /** Everything returned by `n` successive calls over an unchanged set of eligible jobs. */
  function Returned(ids: seq<nat>, cursor: int, n: nat): set<nat>
    decreases n
  {
    if n == 0 then {} else
      (set j | j in Batch(ids, cursor).0) + Returned(ids, Batch(ids, cursor).1, n - 1)
  }

  function CeilDiv(n: nat): nat {
    (n + 256 - 1) / 256
  }

  /** Calls until the job at index `i` is returned, from a cursor that is past `p` jobs. */
  ghost function Distance(n: nat, p: nat, i: nat): nat
    requires p <= n && i < n
  {
    if i >= p then (i - p) / 256 + 1 else CeilDiv(n - p) + i / 256 + 1
  }

  lemma {:induction false} CountAtElement(ids: seq<nat>, i: nat)
    requires Sorted(ids) && i < |ids|
    ensures CountUpTo(ids, ids[i]) == i + 1
  {
    if i > 0 {
      HeadIsLeast(ids, i);
      CountAtElement(ids[1..], i - 1);
    }
  }

  function From(n: nat, p: nat): nat {
    if p == n then 0 else p
  }

  function To(n: nat, p: nat): nat {
    if From(n, p) + 256 < n then From(n, p) + 256 else n
  }

  lemma BatchIsSlice(ids: seq<nat>, cursor: int)
    requires Sorted(ids) && ids != [] && -1 <= cursor
    ensures var p := CountUpTo(ids, cursor);
            Batch(ids, cursor).0 == ids[From(|ids|, p)..To(|ids|, p)]
  {
    CountUpToSplits(ids, cursor);
    var p := CountUpTo(ids, cursor);
    var from, to := From(|ids|, p), To(|ids|, p);
    assert Take(ids[from..]) == ids[from..to];
  }

  /** What one call does to the position, and which jobs it returns. */
  lemma BatchMoves(ids: seq<nat>, cursor: int)
    requires Sorted(ids) && ids != [] && -1 <= cursor
    ensures -1 <= Batch(ids, cursor).1
    ensures CountUpTo(ids, Batch(ids, cursor).1) == To(|ids|, CountUpTo(ids, cursor))
  {
    BatchIsSlice(ids, cursor);
    CountAtElement(ids, To(|ids|, CountUpTo(ids, cursor)) - 1);
  }

  lemma BatchHas(ids: seq<nat>, cursor: int, i: nat)
    requires Sorted(ids) && -1 <= cursor && i < |ids|
    requires From(|ids|, CountUpTo(ids, cursor)) <= i < To(|ids|, CountUpTo(ids, cursor))
    ensures ids[i] in Batch(ids, cursor).0
  {
    BatchIsSlice(ids, cursor);
    assert Batch(ids, cursor).0[i - From(|ids|, CountUpTo(ids, cursor))] == ids[i];
  }

  lemma DistanceShrinks(n: nat, p: nat, i: nat)
    requires p <= n && i < n
    ensures From(n, p) <= i < To(n, p) || (Distance(n, p, i) > 1 && Distance(n, To(n, p), i) <= Distance(n, p, i) - 1)
  {
  }

  /** Index `i` is returned within `k` calls from position `p`. */
  ghost predicate Within(n: nat, p: nat, i: nat, k: nat)
    decreases k
  {
    k > 0 && (From(n, p) <= i < To(n, p) || Within(n, To(n, p), i, k - 1))
  }

  lemma {:induction false} DistanceWithin(n: nat, p: nat, i: nat, k: nat)
    requires p <= n && i < n && Distance(n, p, i) <= k
    ensures Within(n, p, i, k)
    decreases k
  {
    DistanceShrinks(n, p, i);
    if !(From(n, p) <= i < To(n, p)) {
      DistanceWithin(n, To(n, p), i, k - 1);
    }
  }

  lemma {:induction false} ReachedIn(ids: seq<nat>, cursor: int, i: nat, k: nat)
    requires Sorted(ids) && i < |ids| && -1 <= cursor && Within(|ids|, CountUpTo(ids, cursor), i, k)
    ensures ids[i] in Returned(ids, cursor, k)
    decreases k
  {
    BatchMoves(ids, cursor);
    if From(|ids|, CountUpTo(ids, cursor)) <= i < To(|ids|, CountUpTo(ids, cursor)) {
      BatchHas(ids, cursor, i);
    } else {
      ReachedIn(ids, Batch(ids, cursor).1, i, k - 1);
    }
  }

  /** From any cursor, ceil(n / 256) + 1 calls return every eligible job. */
  lemma NoJobStarves(ids: seq<nat>, cursor: int, n: nat)
    requires Sorted(ids) && -1 <= cursor && (CeilDiv(|ids|) + 1 <= n || 2 * CeilDiv(|ids|) <= n)
    ensures forall j :: j in ids ==> j in Returned(ids, cursor, n)
  {
    forall j | j in ids ensures j in Returned(ids, cursor, n) {
      var i :| 0 <= i < |ids| && ids[i] == j;
      DistanceWithin(|ids|, CountUpTo(ids, cursor), i, n);
      ReachedIn(ids, cursor, i, n);
    }
  }

  /** A call never returns more than 256 jobs, and only eligible ones. */
  lemma BatchBounded(ids: seq<nat>, cursor: int)
    ensures |Batch(ids, cursor).0| <= 256 && forall j :: j in Batch(ids, cursor).0 ==> j in ids
  {
    var p := CountUpTo(ids, cursor);
    forall j | j in ids[p..] ensures j in ids {
      var i :| 0 <= i < |ids[p..]| && ids[p..][i] == j;
      assert ids[p + i] == j;
    }
  }
}
