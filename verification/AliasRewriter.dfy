/** `rewrite_matcher`: an alias keeps what it owns and takes its matcher blocks from the rule that replaced it. */
module AliasRewriter {
  import opened Options
  import opened AliasLines
  import opened AliasSplit

  predicate Owned(key: string) {
    key in {"id", "severity", "message", "note", "metadata"}
  }

  /** The block the dictionary of matcher blocks holds for a key: the last one wins. */
  function LastFor(bs: seq<Block>, key: string): Option<Block> {
    if bs == [] then None else
      var b := bs[|bs| - 1];
      if !Owned(b.key) && b.key == key then Some(b) else LastFor(bs[..|bs| - 1], key)
  }

  /** The dictionary's keys, in order of first insertion. */
  function MatcherKeys(bs: seq<Block>): seq<string> {
    if bs == [] then [] else
      var ks := MatcherKeys(bs[..|bs| - 1]);
      var key := bs[|bs| - 1].key;
      if Owned(key) || key in ks then ks else ks + [key]
  }

  /** What one alias block contributes: itself when owned, the target's block, or nothing. */
  function Contribution(b: Block, target: seq<Block>): seq<Block> {
    if Owned(b.key) then [b] else if LastFor(target, b.key).Some? then [LastFor(target, b.key).value] else []
  }

  function Placed(alias: seq<Block>, target: seq<Block>): seq<Block> {
    if alias == [] then [] else Placed(alias[..|alias| - 1], target) + Contribution(alias[|alias| - 1], target)
  }

  /** Behind the last matcher block of the alias, kept or dropped; at the end when it had none. */
  function InsertAt(alias: seq<Block>, target: seq<Block>): (r: Option<nat>)
    ensures r.Some? ==> r.value <= |Placed(alias, target)|
  {
    if alias == [] then None
    else if !Owned(alias[|alias| - 1].key) then Some(|Placed(alias, target)|)
    else InsertAt(alias[..|alias| - 1], target)
  }

  predicate HasKey(bs: seq<Block>, key: string) {
    exists i :: 0 <= i < |bs| && bs[i].key == key
  }

  /** The target's blocks for keys the alias does not have. */
  function Missing(keys: seq<string>, alias: seq<Block>, target: seq<Block>): seq<Block> {
    if keys == [] then [] else
      var k := keys[|keys| - 1];
      Missing(keys[..|keys| - 1], alias, target)
      + if !HasKey(alias, k) && LastFor(target, k).Some? then [LastFor(target, k).value] else []
  }

  function RewriteBlocks(alias: seq<Block>, target: seq<Block>): seq<Block> {
    var out := Placed(alias, target);
    var at := if InsertAt(alias, target).Some? then InsertAt(alias, target).value else |out|;
    out[..at] + Missing(MatcherKeys(target), alias, target) + out[at..]
  }

  // ---- the dictionary of matcher blocks ----

  lemma {:induction false} LastForFound(bs: seq<Block>, key: string)
    requires LastFor(bs, key).Some?
    ensures LastFor(bs, key).value in bs && LastFor(bs, key).value.key == key && !Owned(key)
  {
    var b := bs[|bs| - 1];
    if Owned(b.key) || b.key != key {
      LastForFound(bs[..|bs| - 1], key);
    }
  }

  lemma {:induction false} MatcherKeysFound(bs: seq<Block>, key: string)
    ensures key in MatcherKeys(bs) <==> LastFor(bs, key).Some?
    ensures key in MatcherKeys(bs) <==> !Owned(key) && HasKey(bs, key)
  {
    if bs != [] {
      var n := |bs| - 1;
      MatcherKeysFound(bs[..n], key);
      assert HasKey(bs, key) <==> HasKey(bs[..n], key) || bs[n].key == key by {
        if HasKey(bs[..n], key) {
          var i :| 0 <= i < n && bs[..n][i].key == key;
          assert bs[i].key == key;
        }
        if i :| 0 <= i < |bs| && bs[i].key == key && i < n {
          assert bs[..n][i].key == key;
        }
      }
    }
  }

  // ---- owned blocks are kept ----

  function FilterOwned(bs: seq<Block>): seq<Block> {
    if bs == [] then [] else
      var b := bs[|bs| - 1];
      if Owned(b.key) then FilterOwned(bs[..|bs| - 1]) + [b] else FilterOwned(bs[..|bs| - 1])
  }

  lemma {:induction false} FilterAppend(a: seq<Block>, b: seq<Block>)
    ensures FilterOwned(a + b) == FilterOwned(a) + FilterOwned(b)
    decreases |b|
  {
    if b == [] {
      assert a + b == a;
    } else {
      var n := |b| - 1;
      assert (a + b)[..|a| + n] == a + b[..n];
      FilterAppend(a, b[..n]);
    }
  }

  lemma FilterOne(b: Block)
    ensures FilterOwned([b]) == if Owned(b.key) then [b] else []
  {
    assert [b][..0] == [];
  }

  lemma {:induction false} PlacedKeepsOwned(alias: seq<Block>, target: seq<Block>)
    ensures FilterOwned(Placed(alias, target)) == FilterOwned(alias)
  {
    if alias != [] {
      var n := |alias| - 1;
      var b := alias[n];
      PlacedKeepsOwned(alias[..n], target);
      FilterAppend(Placed(alias[..n], target), Contribution(b, target));
      if Owned(b.key) {
        FilterOne(b);
      } else if LastFor(target, b.key).Some? {
        LastForFound(target, b.key);
        FilterOne(LastFor(target, b.key).value);
      }
    }
  }

  lemma {:induction false} MissingHasNoOwned(keys: seq<string>, alias: seq<Block>, target: seq<Block>)
    ensures FilterOwned(Missing(keys, alias, target)) == []
  {
    if keys != [] {
      var k := keys[|keys| - 1];
      var before := Missing(keys[..|keys| - 1], alias, target);
      MissingHasNoOwned(keys[..|keys| - 1], alias, target);
      if !HasKey(alias, k) && LastFor(target, k).Some? {
        LastForFound(target, k);
        FilterAppend(before, [LastFor(target, k).value]);
        FilterOne(LastFor(target, k).value);
      } else {
        assert before + [] == before;
      }
    }
  }

  /** The owned blocks survive, in order and byte for byte, and no others appear. */
  lemma OwnedBlocksKept(alias: seq<Block>, target: seq<Block>)
    ensures FilterOwned(RewriteBlocks(alias, target)) == FilterOwned(alias)
  {
    var out := Placed(alias, target);
    var at := if InsertAt(alias, target).Some? then InsertAt(alias, target).value else |out|;
    var missing := Missing(MatcherKeys(target), alias, target);
    PlacedKeepsOwned(alias, target);
    MissingHasNoOwned(MatcherKeys(target), alias, target);
    FilterInsert(out[..at], missing, out[at..]);
    assert out[..at] + out[at..] == out;
  }

  lemma FilterInsert(a: seq<Block>, missing: seq<Block>, b: seq<Block>)
    requires FilterOwned(missing) == []
    ensures FilterOwned(a + missing + b) == FilterOwned(a + b)
  {
    FilterAppend(a + missing, b);
    FilterAppend(a, missing);
    FilterAppend(a, b);
    assert FilterOwned(a) + [] == FilterOwned(a);
  }

  // ---- matcher blocks are the target's ----

  lemma {:induction false} PlacedMembers(alias: seq<Block>, target: seq<Block>, b: Block)
    ensures b in Placed(alias, target) <==> exists a :: a in alias && b in Contribution(a, target)
  {
    if alias != [] {
      var n := |alias| - 1;
      PlacedMembers(alias[..n], target, b);
      if a :| a in alias && b in Contribution(a, target) {
        assert a in alias[..n] || a == alias[n];
      }
      if b in Contribution(alias[n], target) {
        assert alias[n] in alias;
      }
    }
  }

  lemma {:induction false} MissingMembers(keys: seq<string>, alias: seq<Block>, target: seq<Block>, b: Block)
    ensures b in Missing(keys, alias, target) <==>
            exists k :: k in keys && !HasKey(alias, k) && LastFor(target, k) == Some(b)
  {
    if keys != [] {
      var n := |keys| - 1;
      MissingMembers(keys[..n], alias, target, b);
      if k :| k in keys && !HasKey(alias, k) && LastFor(target, k) == Some(b) {
        assert k in keys[..n] || k == keys[n];
      }
    }
  }

  lemma RewriteMembers(alias: seq<Block>, target: seq<Block>, b: Block)
    ensures b in RewriteBlocks(alias, target) <==>
            b in Placed(alias, target) || b in Missing(MatcherKeys(target), alias, target)
  {
    var out := Placed(alias, target);
    var at := if InsertAt(alias, target).Some? then InsertAt(alias, target).value else |out|;
    assert out == out[..at] + out[at..];
  }

  /** Every matcher block of the result is the target's block for its key. */
  lemma MatcherFromTarget(alias: seq<Block>, target: seq<Block>, b: Block)
    requires b in RewriteBlocks(alias, target) && !Owned(b.key)
    ensures LastFor(target, b.key) == Some(b)
  {
    RewriteMembers(alias, target, b);
    PlacedMembers(alias, target, b);
    MissingMembers(MatcherKeys(target), alias, target, b);
    if b in Placed(alias, target) {
      var a :| a in alias && b in Contribution(a, target);
      LastForFound(target, a.key);
    } else {
      var k :| k in MatcherKeys(target) && !HasKey(alias, k) && LastFor(target, k) == Some(b);
      LastForFound(target, k);
    }
  }

  /** Every matcher key of the target is in the result, with the target's block. */
  lemma TargetAllPresent(alias: seq<Block>, target: seq<Block>, key: string)
    requires LastFor(target, key).Some?
    ensures LastFor(target, key).value in RewriteBlocks(alias, target)
  {
    var b := LastFor(target, key).value;
    LastForFound(target, key);
    RewriteMembers(alias, target, b);
    if HasKey(alias, key) {
      var i :| 0 <= i < |alias| && alias[i].key == key;
      assert alias[i] in alias && b in Contribution(alias[i], target);
      PlacedMembers(alias, target, b);
    } else {
      MatcherKeysFound(target, key);
      MissingMembers(MatcherKeys(target), alias, target, b);
    }
  }

  // ---- idempotence ----

  /** Owned blocks, or the target's own. */
  ghost predicate Settled(bs: seq<Block>, target: seq<Block>) {
    forall b :: b in bs ==> Owned(b.key) || LastFor(target, b.key) == Some(b)
  }

  lemma {:induction false} SettledIsPlaced(bs: seq<Block>, target: seq<Block>)
    requires Settled(bs, target)
    ensures Placed(bs, target) == bs
  {
    if bs != [] {
      var init, b := bs[..|bs| - 1], bs[|bs| - 1];
      assert init + [b] == bs;
      SettledIsPlaced(init, target);
    }
  }

  lemma {:induction false} NothingMissing(keys: seq<string>, bs: seq<Block>, target: seq<Block>)
    requires forall k :: k in keys ==> HasKey(bs, k)
    ensures Missing(keys, bs, target) == []
  {
    if keys != [] {
      NothingMissing(keys[..|keys| - 1], bs, target);
    }
  }

  /** Rewriting the result again changes nothing. */
  lemma RewriteIdempotent(alias: seq<Block>, target: seq<Block>)
    ensures RewriteBlocks(RewriteBlocks(alias, target), target) == RewriteBlocks(alias, target)
  {
    var r := RewriteBlocks(alias, target);
    forall b | b in r ensures Owned(b.key) || LastFor(target, b.key) == Some(b) {
      if !Owned(b.key) {
        MatcherFromTarget(alias, target, b);
      }
    }
    SettledIsPlaced(r, target);
    forall k | k in MatcherKeys(target) ensures HasKey(r, k) {
      MatcherKeysFound(target, k);
      TargetAllPresent(alias, target, k);
      LastForFound(target, k);
      var i :| 0 <= i < |r| && r[i] == LastFor(target, k).value;
    }
    NothingMissing(MatcherKeys(target), r, target);
    InsertNothing(r, if InsertAt(r, target).Some? then InsertAt(r, target).value else |r|);
  }

  lemma InsertNothing(r: seq<Block>, at: nat)
    requires at <= |r|
    ensures r[..at] + [] + r[at..] == r
  {
  }

  // ---- meaning ----

  /** The merge of the per-block parses: a later block for the same key overrides an earlier one. */
  function Meaning(bs: seq<Block>): map<string, string> {
    if bs == [] then map[] else Meaning(bs[..|bs| - 1])[bs[|bs| - 1].key := bs[|bs| - 1].value]
  }

  /** The alias as it must parse: its owned keys plus the target's matcher. */
  function Expected(alias: map<string, string>, target: map<string, string>): map<string, string> {
    (map k | k in alias && Owned(k) :: alias[k]) + (map k | k in target && !Owned(k) :: target[k])
  }

  lemma {:induction false} MeaningOwned(bs: seq<Block>, key: string)
    requires Owned(key)
    ensures key in Meaning(bs) <==> key in Meaning(FilterOwned(bs))
    ensures key in Meaning(bs) ==> Meaning(bs)[key] == Meaning(FilterOwned(bs))[key]
  {
    if bs != [] {
      var init, b := bs[..|bs| - 1], bs[|bs| - 1];
      MeaningOwned(init, key);
      MeaningSnoc(FilterOwned(init), b);
    }
  }

  lemma MeaningSnoc(bs: seq<Block>, b: Block)
    ensures Meaning(bs + [b]) == Meaning(bs)[b.key := b.value]
  {
    assert (bs + [b])[..|bs|] == bs;
  }

  lemma {:induction false} MeaningMatcher(bs: seq<Block>, key: string)
    requires !Owned(key)
    ensures key in Meaning(bs) <==> LastFor(bs, key).Some?
    ensures key in Meaning(bs) ==> Meaning(bs)[key] == LastFor(bs, key).value.value
  {
    if bs != [] {
      MeaningMatcher(bs[..|bs| - 1], key);
    }
  }

  lemma {:induction false} LastForPresent(bs: seq<Block>, b: Block)
    requires b in bs && !Owned(b.key)
    ensures LastFor(bs, b.key).Some?
  {
    var n := |bs| - 1;
    if b != bs[n] {
      assert b in bs[..n];
      LastForPresent(bs[..n], b);
    }
  }

  lemma LastForSettled(alias: seq<Block>, target: seq<Block>, key: string)
    requires !Owned(key)
    ensures LastFor(RewriteBlocks(alias, target), key) == LastFor(target, key)
  {
    var r := RewriteBlocks(alias, target);
    if LastFor(r, key).Some? {
      LastForFound(r, key);
      MatcherFromTarget(alias, target, LastFor(r, key).value);
    } else if LastFor(target, key).Some? {
      TargetAllPresent(alias, target, key);
      LastForFound(target, key);
      LastForPresent(r, LastFor(target, key).value);
    }
  }

  /** The merged blocks of the rewritten alias mean its own keys plus the target's matcher. */
  lemma RewriteMeaning(alias: seq<Block>, target: seq<Block>)
    ensures Meaning(RewriteBlocks(alias, target)) == Expected(Meaning(alias), Meaning(target))
  {
    var r := RewriteBlocks(alias, target);
    OwnedBlocksKept(alias, target);
    forall k
      ensures k in Meaning(r) <==> k in Expected(Meaning(alias), Meaning(target))
      ensures k in Meaning(r) ==> Meaning(r)[k] == Expected(Meaning(alias), Meaning(target))[k]
    {
      if Owned(k) {
        MeaningOwned(r, k);
        MeaningOwned(alias, k);
      } else {
        MeaningMatcher(r, k);
        MeaningMatcher(target, k);
        LastForSettled(alias, target, k);
      }
    }
  }

  // ---- texts ----

  /** The rewritten file, or nothing when either text cannot be split. */
  function Rewrite(alias: string, target: string, parse: string -> Option<Entry>): Option<string> {
    var a, t := SplitBlocks(alias, parse), SplitBlocks(target, parse);
    if a.Exit? || t.Exit? then None else Some(a.pre + Join(Texts(RewriteBlocks(a.blocks, t.blocks))))
  }

  lemma RewriteGenuine(alias: seq<Block>, target: seq<Block>, parse: string -> Option<Entry>)
    requires (forall b :: b in alias ==> Genuine(b, parse)) && (forall b :: b in target ==> Genuine(b, parse))
    ensures forall b :: b in RewriteBlocks(alias, target) ==> Genuine(b, parse)
  {
    forall b | b in RewriteBlocks(alias, target) ensures Genuine(b, parse) {
      if Owned(b.key) {
        RewriteMembers(alias, target, b);
        PlacedMembers(alias, target, b);
        MissingMembers(MatcherKeys(target), alias, target, b);
        if b in Placed(alias, target) {
          var a :| a in alias && b in Contribution(a, target);
          if !Owned(a.key) {
            LastForFound(target, a.key);
          }
        } else {
          var k :| k in MatcherKeys(target) && !HasKey(alias, k) && LastFor(target, k) == Some(b);
          LastForFound(target, k);
        }
      } else {
        MatcherFromTarget(alias, target, b);
        LastForFound(target, b.key);
      }
    }
  }

  /** Blocks can follow the preamble, or there are none: the alias has no block and the target no matcher key. */
  ghost predicate Appendable(alias: string, target: string, parse: string -> Option<Entry>)
    requires SplitBlocks(alias, parse).Split? && SplitBlocks(target, parse).Split?
  {
    || Closed(SplitBlocks(alias, parse).pre)
    || (SplitBlocks(alias, parse).blocks == [] && MatcherKeys(SplitBlocks(target, parse).blocks) == [])
  }

  lemma MatcherKeyPlaced(alias: seq<Block>, target: seq<Block>)
    requires MatcherKeys(target) != []
    ensures RewriteBlocks(alias, target) != []
  {
    var key := MatcherKeys(target)[0];
    MatcherKeysFound(target, key);
    TargetAllPresent(alias, target, key);
  }

  /** The result splits into the alias's preamble and the rewritten blocks exactly when it is appendable. */
  lemma RewriteSplits(alias: string, target: string, parse: string -> Option<Entry>)
    requires SplitBlocks(alias, parse).Split? && SplitBlocks(target, parse).Split?
    ensures var a, t := SplitBlocks(alias, parse), SplitBlocks(target, parse);
            SplitBlocks(Rewrite(alias, target, parse).value, parse) == Split(a.pre, RewriteBlocks(a.blocks, t.blocks))
            <==> Appendable(alias, target, parse)
    ensures SplitBlocks(alias, parse).blocks != [] ==> Appendable(alias, target, parse)
  {
    var a, t := SplitBlocks(alias, parse), SplitBlocks(target, parse);
    SplitIsClean(alias, parse);
    SplitIsClean(target, parse);
    RewriteGenuine(a.blocks, t.blocks, parse);
    var r := RewriteBlocks(a.blocks, t.blocks);
    if Appendable(alias, target, parse) {
      SplitAfterConcat(a.pre, r, parse);
    } else {
      MatcherKeyPlaced(a.blocks, t.blocks);
      GluedPreamble(a.pre, r, parse);
    }
  }

  // ---- an unended preamble swallows the first block ----

  lemma {:induction false} FirstLinePast(l: string, x: string)
    requires IsLine(l) && !IsEnd(l[|l| - 1]) && x != ""
    ensures FirstLine(l + x) == |l| + FirstLine(x)
    decreases |l|
  {
    var t := l + x;
    assert t[0] == l[0];
    if |l| == 1 {
      assert t[1..] == x;
    } else {
      assert t[1..] == l[1..] + x && t[1] == l[1];
      FirstLinePast(l[1..], x);
    }
  }

  lemma {:induction false} PreambleGrows(ls: seq<string>, n: nat)
    requires n <= |ls| && Group(ls).Grouped?
    ensures Group(ls[..n]).Grouped? && |Group(ls[..n]).pre| <= |Group(ls).pre|
    decreases |ls|
  {
    if n < |ls| {
      assert ls[..|ls| - 1][..n] == ls[..n];
      PreambleGrows(ls[..|ls| - 1], n);
    } else {
      assert ls[..n] == ls;
    }
  }

  lemma GluedPreamble(pre: string, bs: seq<Block>, parse: string -> Option<Entry>)
    requires Preamble(pre) && !Closed(pre) && bs != [] && forall b :: b in bs ==> Genuine(b, parse)
    ensures SplitBlocks(pre + Join(Texts(bs)), parse) != Split(pre, bs)
  {
    assert Genuine(bs[0], parse);
    SolidStarts(bs[0].text);
    assert Texts(bs)[0] == bs[0].text;
    GluedLines(pre, Join(Texts(bs)));
  }

  lemma GluedLines(pre: string, x: string)
    requires Preamble(pre) && !Closed(pre) && x != ""
    ensures Group(SplitLines(pre + x)).Grouped? ==> |Group(SplitLines(pre + x)).pre| > |pre|
  {
    var init, l := UnendedLine(pre);
    GluedTo(init, l, x);
  }

  /** A text that is not closed has a last line without an end. */
  lemma UnendedLine(pre: string) returns (init: seq<string>, l: string)
    requires !Closed(pre)
    ensures SplitLines(pre) == init + [l] && Proper(init + [l]) && pre == Join(init) + l
    ensures IsLine(l) && !IsEnd(l[|l| - 1])
  {
    var ls := SplitLines(pre);
    JoinSplit(pre);
    SplitProper(pre);
    assert ls != [];
    init, l := ls[..|ls| - 1], ls[|ls| - 1];
    assert init + [l] == ls;
    JoinSnoc(ls);
  }

  /** The unended line takes in what follows it. */
  lemma GluedTo(init: seq<string>, l: string, x: string)
    requires NoKeys(init + [l]) && Proper(init + [l]) && IsLine(l) && !IsEnd(l[|l| - 1]) && x != ""
    ensures var all := SplitLines(Join(init) + l + x);
            Group(all).Grouped? ==> |Group(all).pre| > |Join(init) + l|
  {
    GluedSplit(init, l, x);
    FirstLinePast(l, x);
    var f, rest := (l + x)[..FirstLine(l + x)], SplitLines((l + x)[FirstLine(l + x)..]);
    assert l < f by {
      assert f[..|l|] == l;
    }
    GluedGroup(init, l, f);
    GrownPreamble(init + [f], rest);
  }

  lemma GrownPreamble(some: seq<string>, rest: seq<string>)
    requires Group(some).Grouped?
    ensures Group(some + rest).Grouped? ==> |Group(some + rest).pre| >= |Group(some).pre|
  {
    assert (some + rest)[..|some|] == some;
    if Group(some + rest).Grouped? {
      PreambleGrows(some + rest, |some|);
    }
  }

  lemma GluedGroup(init: seq<string>, l: string, f: string)
    requires NoKeys(init + [l]) && l != "" && l < f
    ensures Group(init + [f]).Grouped? && |Group(init + [f]).pre| > |Join(init) + l|
  {
    assert !StartsKey((init + [l])[|init|]);
    assert f[0] == l[0];
    forall i | 0 <= i < |init + [f]| ensures !StartsKey((init + [f])[i]) {
      assert i < |init| ==> (init + [f])[i] == (init + [l])[i];
    }
    GroupPreamble(init + [f]);
    JoinSnoc(init + [f]);
    assert (init + [f])[..|init|] == init;
  }

  lemma ProperInit(init: seq<string>, l: string)
    requires Proper(init + [l])
    ensures Proper(init) && IsLine(l) && (init != [] ==> Ended(init[|init| - 1], l))
  {
    var ls := init + [l];
    assert ls[|init|] == l;
    forall i | 0 <= i < |init| ensures init[i] == ls[i] {}
    forall i | 0 <= i < |init| - 1 ensures Ended(init[i], init[i + 1]) {
      assert Ended(ls[i], ls[i + 1]);
    }
    if init != [] {
      assert Ended(ls[|init| - 1], ls[|init|]);
    }
  }

  lemma GluedSplit(init: seq<string>, l: string, x: string)
    requires Proper(init + [l]) && x != ""
    ensures SplitLines(Join(init) + l + x) ==
            init + [(l + x)[..FirstLine(l + x)]] + SplitLines((l + x)[FirstLine(l + x)..])
  {
    ProperInit(init, l);
    SplitJoin(init);
    JoinEnded(init, l, x);
    SplitAppend(Join(init), l + x);
    TextAssociates(Join(init), l, x);
    Reassociate(init, (l + x)[..FirstLine(l + x)], SplitLines((l + x)[FirstLine(l + x)..]));
  }

  lemma TextAssociates(a: string, b: string, c: string)
    ensures a + b + c == a + (b + c)
  {
  }

  lemma Reassociate(a: seq<string>, l: string, b: seq<string>)
    ensures a + ([l] + b) == a + [l] + b
  {
  }

  lemma JoinEnded(init: seq<string>, l: string, x: string)
    requires l != "" && (init != [] ==> Ended(init[|init| - 1], l))
    ensures Join(init) == "" || Ended(Join(init), l + x)
  {
    if init != [] {
      JoinSnoc(init);
      var j := Join(init);
      assert j[|j| - 1] == init[|init| - 1][|init[|init| - 1]| - 1];
      assert (l + x)[0] == l[0];
    }
  }

  // ---- the loop ----

  lemma PlacedNext(alias: seq<Block>, target: seq<Block>, i: nat)
    requires i < |alias|
    ensures Placed(alias[..i + 1], target) == Placed(alias[..i], target) + Contribution(alias[i], target)
    ensures InsertAt(alias[..i + 1], target) ==
            if Owned(alias[i].key) then InsertAt(alias[..i], target) else Some(|Placed(alias[..i + 1], target)|)
  {
    assert alias[..i + 1][..i] == alias[..i];
  }

  /** Walk the alias blocks: keep, replace or drop each one. */
  method PlaceBlocks(alias: seq<Block>, target: seq<Block>)
    returns (out: seq<Block>, insertAt: Option<nat>, placed: set<string>)
    ensures out == Placed(alias, target) && insertAt == InsertAt(alias, target)
    ensures forall k :: k in placed <==> LastFor(target, k).Some? && HasKey(alias, k)
  {
    out, insertAt, placed := [], None, {};
    for i := 0 to |alias|
      invariant out == Placed(alias[..i], target) && insertAt == InsertAt(alias[..i], target)
      invariant forall k :: k in placed <==> LastFor(target, k).Some? && HasKey(alias[..i], k)
    {
      var b := alias[i];
      HasKeySnoc(alias, i);
      PlacedNext(alias, target, i);
      if Owned(b.key) {
        NotMatcher(target, b.key);
        out := out + [b];
      } else {
        var block := LastFor(target, b.key);
        if block.Some? {
          out := out + [block.value];
          placed := placed + {b.key};
        } else {
          assert out + [] == out;
        }
        insertAt := Some(|out|);
      }
    }
    assert alias[..|alias|] == alias;
  }

  method FindMissing(alias: seq<Block>, target: seq<Block>, placed: set<string>) returns (missing: seq<Block>)
    requires forall k :: k in placed <==> LastFor(target, k).Some? && HasKey(alias, k)
    ensures missing == Missing(MatcherKeys(target), alias, target)
  {
    var keys := MatcherKeys(target);
    missing := [];
    for i := 0 to |keys|
      invariant missing == Missing(keys[..i], alias, target)
    {
      assert keys[..i + 1][..i] == keys[..i];
      MatcherKeysFound(target, keys[i]);
      if keys[i] !in placed {
        missing := missing + [LastFor(target, keys[i]).value];
      } else {
        assert missing + [] == missing;
      }
    }
    assert keys[..|keys|] == keys;
  }

  method RewriteMatcher(alias: string, target: string, parse: string -> Option<Entry>) returns (r: Option<string>)
    ensures r == Rewrite(alias, target, parse)
  {
    var a := SplitText(alias, parse);
    var t := SplitText(target, parse);
    if a.Exit? || t.Exit? {
      return None;
    }
    var out, insertAt, placed := PlaceBlocks(a.blocks, t.blocks);
    var missing := FindMissing(a.blocks, t.blocks, placed);
    var at := if insertAt.Some? then insertAt.value else |out|;
    r := Some(a.pre + Join(Texts(out[..at] + missing + out[at..])));
  }

  lemma HasKeySnoc(bs: seq<Block>, i: nat)
    requires i < |bs|
    ensures forall k :: HasKey(bs[..i + 1], k) <==> HasKey(bs[..i], k) || bs[i].key == k
  {
    var a, b := bs[..i], bs[..i + 1];
    assert forall j :: 0 <= j < i ==> a[j] == b[j];
    forall k ensures HasKey(b, k) <==> HasKey(a, k) || bs[i].key == k {
      if HasKey(a, k) {
        var j :| 0 <= j < |a| && a[j].key == k;
        assert b[j].key == k;
      }
      if bs[i].key == k {
        assert b[i].key == k;
      }
      if HasKey(b, k) {
        var j :| 0 <= j < |b| && b[j].key == k;
        assert j < i ==> a[j].key == k;
      }
    }
  }

  lemma NotMatcher(bs: seq<Block>, key: string)
    requires Owned(key)
    ensures LastFor(bs, key).None?
  {
    if LastFor(bs, key).Some? {
      LastForFound(bs, key);
    }
  }
}
