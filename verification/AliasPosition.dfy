/** Where the blocks of a rewritten alias stand: the keys of the result in order, and where target-only blocks go. */
module AliasPosition {
  import opened Options
  import opened AliasSplit
  import opened AliasRewriter

  function Keys(bs: seq<Block>): seq<string> {
    if bs == [] then [] else [bs[0].key] + Keys(bs[1..])
  }

  /** The keys of the alias that stay, in its order: its own, and those the target's matcher has. */
  function CarriedKeys(alias: seq<Block>, target: seq<Block>): seq<string> {
    if alias == [] then [] else
      (if Owned(alias[0].key) || HasKey(target, alias[0].key) then [alias[0].key] else [])
      + CarriedKeys(alias[1..], target)
  }

  /** The keys that the alias does not have. */
  function NewKeys(keys: seq<string>, alias: seq<Block>): seq<string> {
    if keys == [] then [] else (if HasKey(alias, keys[0]) then [] else [keys[0]]) + NewKeys(keys[1..], alias)
  }

  lemma {:induction false} KeysAppend(a: seq<Block>, b: seq<Block>)
    ensures Keys(a + b) == Keys(a) + Keys(b)
  {
    if a == [] {
      assert a + b == b;
    } else {
      assert (a + b)[1..] == a[1..] + b;
      KeysAppend(a[1..], b);
    }
  }

  lemma {:induction false} CarriedAppend(a: seq<Block>, b: Block, target: seq<Block>)
    ensures CarriedKeys(a + [b], target) ==
            CarriedKeys(a, target) + if Owned(b.key) || HasKey(target, b.key) then [b.key] else []
  {
    if a == [] {
      assert a + [b] == [b] && [b][1..] == [];
    } else {
      assert (a + [b])[1..] == a[1..] + [b];
      CarriedAppend(a[1..], b, target);
    }
  }

  lemma {:induction false} NewKeysAppend(keys: seq<string>, k: string, alias: seq<Block>)
    ensures NewKeys(keys + [k], alias) == NewKeys(keys, alias) + if HasKey(alias, k) then [] else [k]
  {
    if keys == [] {
      assert keys + [k] == [k] && [k][1..] == [];
    } else {
      assert (keys + [k])[1..] == keys[1..] + [k];
      NewKeysAppend(keys[1..], k, alias);
    }
  }

  /** What an alias block contributes has its key, or is nothing. */
  lemma ContributionKeys(b: Block, target: seq<Block>)
    ensures Keys(Contribution(b, target)) == if Owned(b.key) || HasKey(target, b.key) then [b.key] else []
  {
    MatcherKeysFound(target, b.key);
    if LastFor(target, b.key).Some? {
      LastForFound(target, b.key);
    }
  }

  lemma {:induction false} PlacedKeys(alias: seq<Block>, target: seq<Block>)
    ensures Keys(Placed(alias, target)) == CarriedKeys(alias, target)
  {
    if alias != [] {
      var n := |alias| - 1;
      assert alias[..n] + [alias[n]] == alias;
      PlacedKeys(alias[..n], target);
      KeysAppend(Placed(alias[..n], target), Contribution(alias[n], target));
      ContributionKeys(alias[n], target);
      CarriedAppend(alias[..n], alias[n], target);
    }
  }

  lemma {:induction false} MissingKeys(keys: seq<string>, alias: seq<Block>, target: seq<Block>)
    requires forall k :: k in keys ==> LastFor(target, k).Some?
    ensures Keys(Missing(keys, alias, target)) == NewKeys(keys, alias)
  {
    if keys != [] {
      var n := |keys| - 1;
      var k, before := keys[n], Missing(keys[..n], alias, target);
      assert keys[..n] + [k] == keys;
      MissingKeys(keys[..n], alias, target);
      NewKeysAppend(keys[..n], k, alias);
      LastForFound(target, k);
      if !HasKey(alias, k) {
        KeysAppend(before, [LastFor(target, k).value]);
      } else {
        assert before + [] == before;
      }
    }
  }

  // ---- the order of the target's keys ----

  /** The first place where a key occurs. */
  ghost predicate FirstAt(bs: seq<Block>, key: string, i: nat) {
    i < |bs| && bs[i].key == key && forall h :: 0 <= h < i ==> bs[h].key != key
  }

  lemma {:induction false} EachKeyOnce(bs: seq<Block>)
    ensures forall i, k :: 0 <= i < k < |MatcherKeys(bs)| ==> MatcherKeys(bs)[i] != MatcherKeys(bs)[k]
  {
    if bs != [] {
      EachKeyOnce(bs[..|bs| - 1]);
    }
  }

  /** The matcher keys stand in the order in which they first occur. */
  lemma {:induction false} KeysInOrder(bs: seq<Block>, i: nat, k: nat, p: nat, q: nat)
    requires i < k < |MatcherKeys(bs)| && FirstAt(bs, MatcherKeys(bs)[i], p) && FirstAt(bs, MatcherKeys(bs)[k], q)
    ensures p < q
  {
    var n := |bs| - 1;
    var before := MatcherKeys(bs[..n]);
    EachKeyOnce(bs);
    MatcherKeysFound(bs[..n], before[i]);
    var h :| 0 <= h < n && bs[..n][h].key == before[i];
    assert p <= h;
    if k < |before| {
      MatcherKeysFound(bs[..n], before[k]);
      var g :| 0 <= g < n && bs[..n][g].key == before[k];
      assert q <= g;
      assert FirstAt(bs[..n], before[i], p) && FirstAt(bs[..n], before[k], q);
      KeysInOrder(bs[..n], i, k, p, q);
    } else if q < n {
      assert bs[..n][q].key == MatcherKeys(bs)[k];
      MatcherKeysFound(bs[..n], MatcherKeys(bs)[k]);
    }
  }

  /** The block of the dictionary is the last one of its key. */
  lemma {:induction false} LastForIsLast(bs: seq<Block>, key: string)
    requires LastFor(bs, key).Some?
    ensures exists i :: 0 <= i < |bs| && bs[i] == LastFor(bs, key).value && bs[i].key == key
                        && forall h :: i < h < |bs| ==> bs[h].key != key
  {
    var n := |bs| - 1;
    if Owned(bs[n].key) || bs[n].key != key {
      LastForFound(bs, key);
      LastForIsLast(bs[..n], key);
      var i :| 0 <= i < n && bs[..n][i] == LastFor(bs, key).value && bs[..n][i].key == key
               && forall h :: i < h < n ==> bs[..n][h].key != key;
      forall h | i < h < |bs| ensures bs[h].key != key {
        assert h < n ==> bs[..n][h].key != key;
      }
    } else {
      assert bs[n] == LastFor(bs, key).value;
    }
  }

  // ---- where target-only blocks go ----

  ghost predicate AllOwned(bs: seq<Block>) {
    forall b :: b in bs ==> Owned(b.key)
  }

  lemma PlacedSnoc(bs: seq<Block>, b: Block, target: seq<Block>)
    ensures Placed(bs + [b], target) == Placed(bs, target) + Contribution(b, target)
  {
    assert (bs + [b])[..|bs|] == bs && (bs + [b])[|bs|] == b;
  }

  lemma Regroup(a: seq<Block>, tail: seq<Block>)
    requires tail != []
    ensures var n := |tail| - 1; a + tail == (a + tail[..n]) + [tail[n]]
  {
  }

  lemma {:induction false} PlacedTail(a: seq<Block>, tail: seq<Block>, target: seq<Block>)
    requires AllOwned(tail)
    ensures Placed(a + tail, target) == Placed(a, target) + tail
    decreases |tail|
  {
    if tail == [] {
      assert a + tail == a;
    } else {
      var n := |tail| - 1;
      assert Owned(tail[n].key);
      PlacedTail(a, tail[..n], target);
      PlacedSnoc(a + tail[..n], tail[n], target);
      Regroup(a, tail);
      Regroup(Placed(a, target), tail);
    }
  }

  lemma OwnedInsertsNothing(bs: seq<Block>, b: Block, target: seq<Block>)
    requires Owned(b.key)
    ensures InsertAt(bs + [b], target) == InsertAt(bs, target)
  {
    assert (bs + [b])[..|bs|] == bs && (bs + [b])[|bs|] == b;
  }

  lemma {:induction false} InsertedBefore(a: seq<Block>, tail: seq<Block>, target: seq<Block>)
    requires AllOwned(tail) && (a == [] || !Owned(a[|a| - 1].key))
    ensures InsertAt(a + tail, target) == if a == [] then None else Some(|Placed(a, target)|)
    decreases |tail|
  {
    if tail == [] {
      assert a + tail == a;
    } else {
      var n := |tail| - 1;
      assert tail[n] in tail;
      InsertedBefore(a, tail[..n], target);
      OwnedInsertsNothing(a + tail[..n], tail[n], target);
      Regroup(a, tail);
    }
  }

  lemma InsertBetween(p: seq<Block>, rest: seq<Block>, tail: seq<Block>)
    ensures var out := p + tail;
            && out[..|p|] + rest + out[|p|..] == p + rest + tail
            && out[..|out|] + rest + out[|out|..] == out + rest && (p == [] ==> out == tail)
  {
    assert (p + tail)[..|p|] == p && (p + tail)[|p|..] == tail;
  }

  /** `a` ends with the alias's last matcher block and `tail` is what it owns behind it. The blocks of `a` stay, are
      replaced or go, each in its place; then come the target's other matcher blocks; then `tail`. Without a matcher
      block in the alias they come last. */
  lemma TargetOnlyBlocksFollow(a: seq<Block>, tail: seq<Block>, target: seq<Block>)
    requires AllOwned(tail) && (a == [] || !Owned(a[|a| - 1].key))
    ensures var rest := Missing(MatcherKeys(target), a + tail, target);
            && RewriteBlocks(a + tail, target) == (if a == [] then tail + rest else Placed(a, target) + rest + tail)
            && Keys(rest) == NewKeys(MatcherKeys(target), a + tail)
            && Keys(Placed(a, target)) == CarriedKeys(a, target)
  {
    PlacedTail(a, tail, target);
    InsertedBefore(a, tail, target);
    PlacedKeys(a, target);
    forall k | k in MatcherKeys(target) ensures LastFor(target, k).Some? {
      MatcherKeysFound(target, k);
    }
    MissingKeys(MatcherKeys(target), a + tail, target);
    InsertBetween(Placed(a, target), Missing(MatcherKeys(target), a + tail, target), tail);
  }

  /** Every alias splits that way, so the keys of the result are always known. */
  lemma {:induction false} LastMatcherBlock(alias: seq<Block>) returns (n: nat)
    ensures n <= |alias| && AllOwned(alias[n..]) && (n == 0 || !Owned(alias[n - 1].key))
  {
    n := |alias|;
    if alias != [] && Owned(alias[n - 1].key) {
      var last := alias[n - 1];
      n := LastMatcherBlock(alias[..n - 1]);
      assert alias[n..] == alias[..|alias| - 1][n..] + [last];
    }
  }

  /** The keys of the result, in order. */
  lemma ResultKeys(alias: seq<Block>, target: seq<Block>) returns (n: nat)
    ensures n <= |alias| && AllOwned(alias[n..]) && (n == 0 || !Owned(alias[n - 1].key))
    ensures var added := NewKeys(MatcherKeys(target), alias);
            Keys(RewriteBlocks(alias, target)) ==
            if n == 0 then Keys(alias) + added else CarriedKeys(alias[..n], target) + added + Keys(alias[n..])
  {
    n := LastMatcherBlock(alias);
    var a, tail := alias[..n], alias[n..];
    var rest := Missing(MatcherKeys(target), alias, target);
    assert a + tail == alias;
    TargetOnlyBlocksFollow(a, tail, target);
    if n == 0 {
      assert tail == alias;
      KeysAppend(tail, rest);
    } else {
      KeysAppend(Placed(a, target) + rest, tail);
      KeysAppend(Placed(a, target), rest);
    }
  }
}
