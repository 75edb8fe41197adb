/** The shared zone as the engine mutates it, each operation proved against its state change. */
module BanZone {
  import opened Options
  import opened BanModel
  import opened BanTree

  class SharedZone {
    var tree: Tree
    var nodes: map<Key, Node>
    var queue: seq<Key>
    var cursor: Option<Key>
    var bans: nat

    /** Tree and queue hold the same nodes; the tree is in search order. */
    ghost predicate Valid()
      reads this
    {
      && View().Valid()
      && Sorted(InOrder(tree))
      && forall k :: k in InOrder(tree) <==> k in nodes
    }

    ghost function View(): Zone
      reads this
    {
      Zone(nodes, queue, cursor, bans)
    }

    constructor ()
      ensures Valid() && View() == EmptyZone
    {
      tree, nodes, queue, cursor, bans := Leaf, map[], [], None, 0;
    }

    /** Find an address and move it to the head of the queue. */
    method Lookup(k: Key) returns (found: bool)
      requires Valid()
      modifies this`queue
      ensures Valid() && View() == Touch(old(View()), k)
      ensures found <==> k in nodes
    {
      found := Find(tree, k);
      TouchValid(View(), k);
      if found {
        queue := [k] + RemoveAt(queue, IndexOf(queue, k));
      } else {
        assert k !in queue;
      }
    }

    method IsBanned(k: Key, now: int) returns (banned: bool)
      requires Valid()
      modifies this`queue
      ensures Valid() && View() == Touch(old(View()), k)
      ensures banned <==> BanModel.IsBanned(old(View()), k, now)
    {
      var found := Lookup(k);
      banned := found && nodes[k].bannedUntil > now;
    }

    /** Free the node at queue position `q`. */
    method Free(q: nat)
      requires Valid() && cursor.None? && q < |queue|
      modifies this
      ensures Valid() && View() == Evict(old(View()), q)
    {
      var k := queue[q];
      assert k in queue;
      RemoveAtParts(queue, q);
      tree := Delete(tree, k);
      queue := RemoveAt(queue, q);
      nodes := nodes - {k};
    }

    /** Evict at most four stale nodes among at most 32 visited, starting where the last call stopped. */
    method Expire(now: int, window: int, timeMax: int)
      requires Valid()
      modifies this
      ensures Valid() && View() == BanModel.Expire(old(View()), Clock(now, window, timeMax))
    {
      ghost var start := Begin(View());
      ghost var c := Clock(now, window, timeMax);
      var q := match cursor case None => -1 case Some(k) => IndexOf(queue, k);
      var scanned, evicted, wrapped := 0, 0, false;
      if q == -1 {
        q := |queue| - 1;
        wrapped := true;
      }
      cursor := None;
      while scanned < SCAN && evicted < EVICT && !(q == -1 && wrapped)
        invariant Valid() && Sweep(View(), q, scanned, evicted, wrapped).Valid()
        invariant Finish(Sweep(View(), q, scanned, evicted, wrapped), c) == Finish(start, c)
        decreases SCAN - scanned, if wrapped then 0 else 1
      {
        ghost var w := Sweep(View(), q, scanned, evicted, wrapped);
        TurnValid(w, c);
        if q == -1 {
          wrapped := true;
          q := |queue| - 1;
        } else {
          scanned := scanned + 1;
          assert queue[q] in queue;
          if !Live(nodes[queue[q]], now, window, timeMax) {
            Free(q);
            evicted := evicted + 1;
          }
          q := q - 1;
        }
        assert Sweep(View(), q, scanned, evicted, wrapped) == Turn(w, c);
      }
      ExpireDropsStale(old(View()), c);
      cursor := if q == -1 then None else Some(queue[q]);
    }

    /** Insert a fresh node for an address that lookup just proved absent. */
    method Add(k: Key, now: int)
      requires Valid() && k !in nodes
      modifies this
      ensures Valid() && View() == Insert(old(View()), k, now)
    {
      AttachSorted(tree, k);
      AttachMembers(tree, k);
      tree := Rebalance(Attach(tree, k));
      nodes := nodes[k := Fresh(now)];
      queue := [k] + queue;
    }

    /** Roll the window, count the hit, and arm the ban at the threshold. */
    method Count(k: Key, now: int, p: Policy)
      requires Valid() && k in nodes
      modifies this`nodes, this`bans
      ensures Valid() && View() == CountHit(old(View()), k, now, p)
    {
      var n := nodes[k];
      if n.bannedUntil != 0 && n.bannedUntil <= now {
        n := n.(bannedUntil := 0);
      }
      if now < n.windowStart || now - n.windowStart >= p.window {
        n := n.(windowStart := now, hits := 0);
      }
      n := n.(hits := n.hits + 1);
      if n.hits >= p.count {
        bans := bans + 1;
        n := Node(now, AddClamp(now, p.banTime, p.timeMax), 0);
      }
      nodes := nodes[k := n];
    }

    /** Record one hit; false when no memory could be had for a new node. */
    method Record(k: Key, now: int, p: Policy, memory: bool) returns (ok: bool)
      requires Valid()
      modifies this
      ensures Valid() && View() == BanModel.Record(old(View()), k, now, p, memory).0
      ensures ok == BanModel.Record(old(View()), k, now, p, memory).1
    {
      var found := Lookup(k);
      if !found {
        ghost var touched := View();
        ExpireDropsStale(touched, Clock(now, p.window, p.timeMax));
        Expire(now, p.window, p.timeMax);
        if !memory {
          return false;
        }
        Add(k, now);
      }
      Count(k, now, p);
      ok := true;
    }
  }
}
