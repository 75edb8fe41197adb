/** Rewriting an alias twice: the text is left alone exactly when its preamble can be followed by blocks. */
module AliasTwice {
  import opened Options
  import opened AliasLines
  import opened AliasSplit
  import opened AliasRewriter

  // ---- an unended preamble takes the first block in ----

  lemma DropLine(l: string, b: string)
    requires IsLine(l) && !IsEnd(l[|l| - 1]) && b != ""
    ensures FirstLine(l + b) == |l| + FirstLine(b) && (l + b)[FirstLine(l + b)..] == b[FirstLine(b)..]
  {
    FirstLinePast(l, b);
  }

  lemma RestOfBlock(b: string)
    requires Solid(b)
    ensures NoKeys(SplitLines(b[FirstLine(b)..]))
  {
    assert SplitLines(b)[1..] == SplitLines(b[FirstLine(b)..]);
  }

  lemma NoKeysAppend(a: seq<string>, l: string, b: seq<string>)
    requires NoKeys(a) && !StartsKey(l) && NoKeys(b)
    ensures NoKeys(a + [l] + b)
  {
  }

  /** A block glued to an unended preamble is one more piece of it. */
  lemma GluedBlock(pre: string, b: string)
    requires Preamble(pre) && !Closed(pre) && Solid(b)
    ensures Preamble(pre + b) && Closed(pre + b)
  {
    var ls := SplitLines(pre);
    JoinSplit(pre);
    SplitProper(pre);
    assert ls != [];
    var init, l := ls[..|ls| - 1], ls[|ls| - 1];
    assert init + [l] == ls;
    JoinSnoc(ls);
    GluedSplit(init, l, b);
    DropLine(l, b);
    RestOfBlock(b);
    assert (l + b)[..FirstLine(l + b)][0] == l[0] && !StartsKey(ls[|ls| - 1]);
    NoKeysAppend(init, (l + b)[..FirstLine(l + b)], SplitLines(b[FirstLine(b)..]));
  }

  // ---- an alias without blocks ----

  ghost predicate DistinctKeys(ks: seq<string>) {
    forall i, j :: 0 <= i < j < |ks| ==> ks[i] != ks[j]
  }

  lemma {:induction false} MatcherKeysDistinct(bs: seq<Block>)
    ensures DistinctKeys(MatcherKeys(bs))
  {
    if bs != [] {
      MatcherKeysDistinct(bs[..|bs| - 1]);
    }
  }

  /** Every key of the target is missing: its blocks come in the order of the keys. */
  lemma {:induction false} AllMissing(keys: seq<string>, target: seq<Block>)
    requires forall k :: k in keys ==> LastFor(target, k).Some?
    ensures var m := Missing(keys, [], target);
            |m| == |keys| &&
            forall i :: 0 <= i < |keys| ==> m[i].key == keys[i] && LastFor(target, keys[i]) == Some(m[i])
  {
    if keys != [] {
      var n := |keys| - 1;
      AllMissing(keys[..n], target);
      LastForFound(target, keys[n]);
    }
  }

  /** The blocks of an alias that had none: one of the target's for each matcher key. */
  lemma FreshBlocks(target: seq<Block>)
    ensures var r := RewriteBlocks([], target);
            && |r| == |MatcherKeys(target)| && Settled(r, target)
            && (forall i, j :: 0 <= i < j < |r| ==> r[i].key != r[j].key)
            && (forall i :: 0 <= i < |r| ==> r[i].key in MatcherKeys(target) && LastFor(target, r[i].key) == Some(r[i]))
  {
    var keys := MatcherKeys(target);
    forall k | k in keys ensures LastFor(target, k).Some? {
      MatcherKeysFound(target, k);
    }
    MatcherKeysDistinct(target);
    AllMissing(keys, target);
    assert RewriteBlocks([], target) == Missing(keys, [], target);
  }

  lemma JoinHas(bs: seq<Block>, b: Block)
    requires b in bs
    ensures |Join(Texts(bs))| >= |b.text|
  {
    var i :| 0 <= i < |bs| && bs[i] == b;
    var ts := Texts(bs);
    assert ts == ts[..i] + [ts[i]] + ts[i + 1..];
    JoinAppend(ts[..i] + [ts[i]], ts[i + 1..]);
    JoinAppend(ts[..i], [ts[i]]);
    assert Join([ts[i]]) == ts[i] + Join([]);
  }

  lemma TextsSplit(a: seq<Block>, b: seq<Block>)
    ensures Join(Texts(a + b)) == Join(Texts(a)) + Join(Texts(b))
  {
    assert Texts(a + b) == Texts(a) + Texts(b);
    JoinAppend(Texts(a), Texts(b));
  }

  /** Blocks put in between make the text longer by their own length. */
  lemma InsertGrows(out: seq<Block>, at: nat, missing: seq<Block>)
    requires at <= |out|
    ensures |Join(Texts(out[..at] + missing + out[at..]))| == |Join(Texts(out))| + |Join(Texts(missing))|
  {
    TextsSplit(out[..at] + missing, out[at..]);
    TextsSplit(out[..at], missing);
    TextsSplit(out[..at], out[at..]);
    assert out[..at] + out[at..] == out;
  }

  /** Without its first block the alias gets it again, and the text grows. */
  lemma FirstBlockComesBack(target: seq<Block>)
    requires MatcherKeys(target) != []
    ensures var r := RewriteBlocks([], target);
            && r != []
            && |Join(Texts(RewriteBlocks(r[1..], target)))| >= |Join(Texts(r[1..]))| + |r[0].text|
  {
    var r := RewriteBlocks([], target);
    FreshBlocks(target);
    var out := r[1..];
    assert Settled(out, target);
    SettledIsPlaced(out, target);
    var missing := Missing(MatcherKeys(target), out, target);
    assert !HasKey(out, r[0].key);
    MissingMembers(MatcherKeys(target), out, target, r[0]);
    JoinHas(missing, r[0]);
    var at := if InsertAt(out, target).Some? then InsertAt(out, target).value else |out|;
    InsertGrows(out, at, missing);
  }

  // ---- rewriting twice ----

  lemma FirstText(pre: string, r: seq<Block>)
    requires r != []
    ensures pre + Join(Texts(r)) == pre + r[0].text + Join(Texts(r[1..]))
  {
    assert r == [r[0]] + r[1..];
    TextsSplit([r[0]], r[1..]);
    assert Texts([r[0]]) == [r[0].text];
    assert Join([r[0].text]) == r[0].text + Join([]);
    TextAssociates(pre, r[0].text, Join(Texts(r[1..])));
  }

  lemma UnendedSplits(pre: string, r: seq<Block>, parse: string -> Option<Entry>)
    requires Preamble(pre) && !Closed(pre) && r != [] && forall b :: b in r ==> Genuine(b, parse)
    ensures SplitBlocks(pre + Join(Texts(r)), parse) == Split(pre + r[0].text, r[1..])
  {
    assert Genuine(r[0], parse);
    GluedBlock(pre, r[0].text);
    SplitAfterConcat(pre + r[0].text, r[1..], parse);
    FirstText(pre, r);
  }

  /** A second rewrite leaves the text alone exactly when blocks can follow the preamble or there are none. */
  lemma RewriteTwice(alias: string, target: string, parse: string -> Option<Entry>)
    requires SplitBlocks(alias, parse).Split? && SplitBlocks(target, parse).Split?
    ensures Rewrite(Rewrite(alias, target, parse).value, target, parse) == Rewrite(alias, target, parse)
            <==> Appendable(alias, target, parse)
  {
    var a, t := SplitBlocks(alias, parse), SplitBlocks(target, parse);
    if Appendable(alias, target, parse) {
      RewriteSplits(alias, target, parse);
      RewriteIdempotent(a.blocks, t.blocks);
    } else {
      SplitIsClean(alias, parse);
      SplitIsClean(target, parse);
      FirstBlockComesBack(t.blocks);
      var r := RewriteBlocks([], t.blocks);
      RewriteGenuine([], t.blocks, parse);
      UnendedSplits(a.pre, r, parse);
      assert Genuine(r[0], parse);
      SolidStarts(r[0].text);
      Longer(a.pre, r, RewriteBlocks(r[1..], t.blocks));
    }
  }

  lemma Longer(pre: string, r: seq<Block>, again: seq<Block>)
    requires r != [] && r[0].text != "" && |Join(Texts(again))| >= |Join(Texts(r[1..]))| + |r[0].text|
    ensures pre + r[0].text + Join(Texts(again)) != pre + Join(Texts(r))
  {
    FirstText(pre, r);
  }

  // ---- such an alias ----

  /** A parser that knows one key. */
  function KeyOf(b: string): Option<Entry> {
    if b != "" && b[0] == 'k' then Some(Entry("k", b)) else None
  }

  const Comment := "#"
  const Rule := "k:\n"

  lemma CommentSplits()
    ensures SplitBlocks(Comment, KeyOf) == Split(Comment, [])
  {
    IsLineSplits(Comment);
    GroupPreamble([Comment]);
    assert Join([Comment]) == Comment + Join([]);
  }

  lemma RuleIsBlock()
    ensures SplitLines(Rule) == [Rule] && Solid(Rule)
  {
    assert Rule[1..] == ":\n" && ":\n"[1..] == "\n";
    assert FirstLine(":\n") == 1 + FirstLine("\n");
    IsLineSplits(Rule);
  }

  lemma OneBlockSplits(b: Block, parse: string -> Option<Entry>)
    requires Genuine(b, parse)
    ensures SplitBlocks(b.text, parse) == Split("", [b])
  {
    SplitAfterConcat("", [b], parse);
    assert Texts([b]) == [b.text] && Join([b.text]) == b.text + Join([]);
    assert "" + Join(Texts([b])) == b.text;
  }

  lemma RuleSplits()
    ensures SplitBlocks(Rule, KeyOf) == Split("", [Block("k", Rule, Rule)])
  {
    RuleIsBlock();
    OneBlockSplits(Block("k", Rule, Rule), KeyOf);
  }

  /** A one-line comment without a newline takes the rule's block into itself; the next rewrite adds it once more. */
  lemma UnendedComment()
    ensures SplitBlocks(Comment, KeyOf).Split? && SplitBlocks(Rule, KeyOf).Split?
    ensures !Appendable(Comment, Rule, KeyOf)
    ensures Rewrite(Rewrite(Comment, Rule, KeyOf).value, Rule, KeyOf) != Rewrite(Comment, Rule, KeyOf)
  {
    CommentSplits();
    RuleSplits();
    var b := Block("k", Rule, Rule);
    assert [b][..0] == [];
    assert MatcherKeys([b]) == ["k"];
    RewriteTwice(Comment, Rule, KeyOf);
  }
}
