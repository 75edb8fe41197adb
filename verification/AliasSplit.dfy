/** `split_blocks`: what a clean split guarantees about its preamble and blocks. */
module AliasSplit {
  import opened Options
  import opened AliasLines

  /** A one-key YAML mapping. */
  datatype Entry = Entry(key: string, value: string)

  datatype Block = Block(key: string, value: string, text: string)

  /** `Exit` is the SystemExit of an unsplittable file. */
  datatype Split = Split(pre: string, blocks: seq<Block>) | Exit

  function WithNewline(b: string): string {
    if b != "" && b[|b| - 1] == '\n' then b else b + "\n"
  }

  /** The YAML parser is a parameter: `None` when the block is not a mapping with one key. */
  function Keyed(bs: seq<string>, parse: string -> Option<Entry>): Option<seq<Block>> {
    if bs == [] then Some([]) else
      var n := |bs| - 1;
      var before := Keyed(bs[..n], parse);
      var text := WithNewline(bs[n]);
      if before.None? || parse(text).None? then None
      else Some(before.value + [Block(parse(text).value.key, parse(text).value.value, text)])
  }

  function SplitBlocks(text: string, parse: string -> Option<Entry>): Split {
    var g := Group(SplitLines(text));
    if g.Marked? then Exit else
      var keyed := Keyed(g.blocks, parse);
      if keyed.None? then Exit else Split(g.pre, keyed.value)
  }

  /** `lines` are the preamble's lines followed by each block's lines. */
  ghost predicate Shape(ls: seq<string>, pre: string, bs: seq<string>)
    decreases |bs|
  {
    if bs == [] then pre == Join(ls) && NoKeys(ls) else
      exists m :: 0 <= m < |ls| && LastBlock(ls, m, bs[|bs| - 1]) && Shape(ls[..m], pre, bs[..|bs| - 1])
  }

  ghost predicate LastBlock(ls: seq<string>, m: nat, b: string)
    requires m < |ls|
  {
    b == Join(ls[m..]) && BlockLines(ls[m..])
  }

  lemma {:induction false} GroupShape(ls: seq<string>)
    requires Group(ls).Grouped?
    ensures Shape(ls, Group(ls).pre, Group(ls).blocks)
  {
    if ls != [] {
      var init, l := ls[..|ls| - 1], ls[|ls| - 1];
      assert init + [l] == ls;
      GroupShape(init);
      ShapeStep(init, l, Group(init));
    }
  }

  lemma ShapeStep(ls: seq<string>, l: string, g: Grouped)
    requires g.Grouped? && Shape(ls, g.pre, g.blocks) && AddLine(g, l).Grouped?
    ensures Shape(ls + [l], AddLine(g, l).pre, AddLine(g, l).blocks)
  {
    if StartsKey(l) {
      ShapeNewBlock(ls, l, g.pre, g.blocks);
    } else if g.blocks == [] {
      ShapePreamble(ls, l);
    } else {
      ShapeLonger(ls, l, g.pre, g.blocks[..|g.blocks| - 1], g.blocks[|g.blocks| - 1]);
    }
  }

  lemma ShapePreamble(ls: seq<string>, l: string)
    requires NoKeys(ls) && !StartsKey(l)
    ensures Shape(ls + [l], Join(ls) + l, [])
  {
    JoinAppend(ls, [l]);
    assert Join([l]) == l + Join([]);
  }

  lemma CutSnoc(ls: seq<string>, l: string, m: nat)
    requires m <= |ls|
    ensures (ls + [l])[..m] == ls[..m] && (ls + [l])[m..] == ls[m..] + [l]
  {
  }

  lemma ShapeNewBlock(ls: seq<string>, l: string, pre: string, bs: seq<string>)
    requires Shape(ls, pre, bs) && StartsKey(l) && !IsMarker(l)
    ensures Shape(ls + [l], pre, bs + [l])
  {
    CutSnoc(ls, l, |ls|);
    assert ls[..|ls|] == ls && ls[|ls|..] + [l] == [l];
    assert [l][1..] == [] && Join([l]) == l + Join([]);
    assert LastBlock(ls + [l], |ls|, l);
    assert (bs + [l])[..|bs|] == bs;
  }

  lemma ShapeLonger(ls: seq<string>, l: string, pre: string, bs: seq<string>, b: string)
    requires !StartsKey(l)
    requires exists m :: 0 <= m < |ls| && LastBlock(ls, m, b) && Shape(ls[..m], pre, bs)
    ensures Shape(ls + [l], pre, bs + [b + l])
  {
    var m :| 0 <= m < |ls| && LastBlock(ls, m, b) && Shape(ls[..m], pre, bs);
    CutSnoc(ls, l, m);
    LongerBlock(ls[m..], l);
    assert LastBlock(ls + [l], m, b + l);
    assert (bs + [b + l])[..|bs|] == bs;
  }

  lemma LongerBlock(ls: seq<string>, l: string)
    requires BlockLines(ls) && !StartsKey(l)
    ensures BlockLines(ls + [l]) && Join(ls + [l]) == Join(ls) + l
  {
    JoinAppend(ls, [l]);
    assert Join([l]) == l + Join([]);
    assert (ls + [l])[1..] == ls[1..] + [l];
  }

  lemma ProperParts(ls: seq<string>, m: nat)
    requires Proper(ls) && m < |ls|
    ensures Proper(ls[..m]) && Proper(ls[m..])
    ensures m > 0 ==> Closed(Join(ls[..m]))
  {
    if m > 0 {
      assert Ended(ls[m - 1], ls[m]);
      JoinSnoc(ls[..m]);
    }
  }

  /** Each block of a clean split is one complete block, and the preamble has no key. */
  lemma {:induction false} ShapeSolid(ls: seq<string>, pre: string, bs: seq<string>)
    requires Proper(ls) && Shape(ls, pre, bs)
    ensures Preamble(pre) && (bs != [] ==> Closed(pre))
    ensures forall b :: b in bs ==> BlockLines(SplitLines(b))
    decreases |bs|
  {
    if bs == [] {
      SplitJoin(ls);
    } else {
      var n := |bs| - 1;
      var m :| 0 <= m < |ls| && LastBlock(ls, m, bs[n]) && Shape(ls[..m], pre, bs[..n]);
      ProperParts(ls, m);
      SplitJoin(ls[m..]);
      ShapeSolid(ls[..m], pre, bs[..n]);
      forall b | b in bs ensures b in bs[..n] || b == bs[n] {}
      if m == 0 {
        EmptyShape(pre, bs[..n]);
      }
    }
  }

  lemma EmptyShape(pre: string, bs: seq<string>)
    requires Shape([], pre, bs)
    ensures pre == "" && bs == []
  {
  }

  // ---- completing the last line of a block ----

  lemma {:induction false} LineWithNewline(l: string)
    requires IsLine(l) && (!IsEnd(l[|l| - 1]) || l[|l| - 1] == '\r')
    ensures IsLine(l + "\n")
    decreases |l|
  {
    var t := l + "\n";
    if |l| == 1 {
      assert t[0] == l[0] && t[1] == '\n';
      assert FirstLine(t[1..]) == 1;
    } else {
      assert t[0] == l[0] && t[1] == l[1];
      if !IsEnd(l[0]) {
        assert t[1..] == l[1..] + "\n";
        LineWithNewline(l[1..]);
      }
    }
  }

  lemma NewlineSolid(b: string)
    requires BlockLines(SplitLines(b))
    ensures Solid(WithNewline(b))
  {
    assert b != "" by {
      assert SplitLines("") == [];
    }
    var ls := SplitLines(b);
    JoinSplit(b);
    SplitProper(b);
    var n := |ls| - 1;
    JoinSnoc(ls);
    assert b[|b| - 1] == ls[n][|ls[n]| - 1];
    if b[|b| - 1] != '\n' {
      if IsEnd(b[|b| - 1]) && b[|b| - 1] != '\r' {
        assert Ended(b, "\n");
        SplitAppend(b, "\n");
        assert IsLine("\n");
        IsLineSplits("\n");
        LongerBlock(ls, "\n");
      } else {
        LastLineCompleted(b, ls);
      }
    }
  }

  function Completed(ls: seq<string>): (r: seq<string>)
    requires ls != []
    ensures |r| == |ls| && forall i :: 0 <= i < |ls| ==> r[i] == if i == |ls| - 1 then ls[i] + "\n" else ls[i]
  {
    ls[..|ls| - 1] + [ls[|ls| - 1] + "\n"]
  }

  lemma LastLineCompleted(b: string, ls: seq<string>)
    requires ls == SplitLines(b) && BlockLines(ls) && Proper(ls) && b == Join(ls)
    requires !IsEnd(b[|b| - 1]) || b[|b| - 1] == '\r'
    requires b[|b| - 1] == ls[|ls| - 1][|ls[|ls| - 1]| - 1]
    ensures BlockLines(SplitLines(b + "\n"))
  {
    LineWithNewline(ls[|ls| - 1]);
    CompletedProper(ls);
    CompletedJoin(ls);
    SplitJoin(Completed(ls));
    CompletedBlock(ls);
  }

  lemma CompletedProper(ls: seq<string>)
    requires ls != [] && Proper(ls) && IsLine(ls[|ls| - 1] + "\n")
    ensures Proper(Completed(ls))
  {
    var r := Completed(ls);
    forall i | 0 <= i < |r| - 1 ensures Ended(r[i], r[i + 1]) {
      assert Ended(ls[i], ls[i + 1]);
      assert r[i + 1][0] == ls[i + 1][0];
    }
  }

  lemma CompletedJoin(ls: seq<string>)
    requires ls != []
    ensures Join(Completed(ls)) == Join(ls) + "\n"
  {
    var init, l := ls[..|ls| - 1], ls[|ls| - 1];
    JoinSnoc(ls);
    JoinOneMore("", init, l + "\n");
    assert "" + Join(Completed(ls)) == Join(Completed(ls)) && "" + Join(init) == Join(init);
    assert Join(init) + (l + "\n") == Join(init) + l + "\n";
  }

  lemma CompletedBlock(ls: seq<string>)
    requires BlockLines(ls) && Proper(ls)
    ensures BlockLines(Completed(ls))
  {
    var r := Completed(ls);
    forall i | 0 <= i < |r[1..]| ensures !StartsKey(r[1..][i]) {
      assert !StartsKey(ls[1..][i]);
      assert r[1..][i][0] == ls[1..][i][0];
    }
    MarkerCompleted(ls[0]);
  }

  lemma MarkerCompleted(l: string)
    requires l != "" && !IsMarker(l)
    ensures !IsMarker(l + "\n") && (StartsKey(l) ==> StartsKey(l + "\n"))
  {
    var t := l + "\n";
    if |l| >= 3 {
      assert t[..3] == l[..3];
    } else if |l| == 2 {
      assert t[..3][2] == '\n';
    }
  }

  // ---- what a split promises ----

  /** A block as split produces it: complete, and parsed to its own key and value. */
  ghost predicate Genuine(b: Block, parse: string -> Option<Entry>) {
    Solid(b.text) && parse(b.text) == Some(Entry(b.key, b.value))
  }

  lemma {:induction false} KeyedGenuine(bs: seq<string>, parse: string -> Option<Entry>)
    requires Keyed(bs, parse).Some? && forall b :: b in bs ==> BlockLines(SplitLines(b))
    ensures forall b :: b in Keyed(bs, parse).value ==> Genuine(b, parse)
  {
    if bs != [] {
      var n := |bs| - 1;
      KeyedGenuine(bs[..n], parse);
      NewlineSolid(bs[n]);
    }
  }

  /** A clean split gives a key-free preamble and genuine blocks; a block after it closes the preamble. */
  lemma SplitIsClean(text: string, parse: string -> Option<Entry>)
    requires SplitBlocks(text, parse).Split?
    ensures var s := SplitBlocks(text, parse);
            && Preamble(s.pre) && (s.blocks != [] ==> Closed(s.pre))
            && forall b :: b in s.blocks ==> Genuine(b, parse)
  {
    var ls := SplitLines(text);
    var g := Group(ls);
    SplitProper(text);
    GroupShape(ls);
    ShapeSolid(ls, g.pre, g.blocks);
    KeyedGenuine(g.blocks, parse);
  }

  function Texts(bs: seq<Block>): (r: seq<string>)
    ensures |r| == |bs| && forall i :: 0 <= i < |bs| ==> r[i] == bs[i].text
  {
    seq(|bs|, i requires 0 <= i < |bs| => bs[i].text)
  }

  lemma {:induction false} KeyedTexts(bs: seq<Block>, parse: string -> Option<Entry>)
    requires forall b :: b in bs ==> Genuine(b, parse)
    ensures Keyed(Texts(bs), parse) == Some(bs)
  {
    if bs != [] {
      var init, b := bs[..|bs| - 1], bs[|bs| - 1];
      assert init + [b] == bs;
      assert Texts(bs)[..|bs| - 1] == Texts(init);
      KeyedTexts(init, parse);
      assert Genuine(b, parse);
      assert WithNewline(b.text) == b.text;
    }
  }

  /** Split after concatenate is the identity on genuine blocks behind a closed preamble. */
  lemma SplitAfterConcat(pre: string, bs: seq<Block>, parse: string -> Option<Entry>)
    requires Preamble(pre) && (bs == [] || Closed(pre)) && forall b :: b in bs ==> Genuine(b, parse)
    ensures SplitBlocks(pre + Join(Texts(bs)), parse) == Split(pre, bs)
  {
    forall t | t in Texts(bs) ensures Solid(t) {
      var i :| 0 <= i < |bs| && Texts(bs)[i] == t;
      assert Genuine(bs[i], parse);
    }
    GroupConcat(pre, Texts(bs));
    KeyedTexts(bs, parse);
  }

  // ---- the loop ----

  method SplitText(text: string, parse: string -> Option<Entry>) returns (r: Split)
    ensures r == SplitBlocks(text, parse)
  {
    var lines := SplitLines(text);
    var pre, blocks: seq<string> := "", [];
    for i := 0 to |lines|
      invariant Group(lines[..i]) == Grouped(pre, blocks)
    {
      var line := lines[i];
      assert lines[..i + 1][..i] == lines[..i];
      if StartsKey(line) {
        if IsMarker(line) {
          MarkedStays(lines, i + 1);
          return Exit;
        }
        blocks := blocks + [line];
      } else if blocks != [] {
        blocks := blocks[..|blocks| - 1] + [blocks[|blocks| - 1] + line];
      } else {
        pre := pre + line;
      }
    }
    assert lines[..|lines|] == lines;
    var keyed: seq<Block> := [];
    for i := 0 to |blocks|
      invariant Keyed(blocks[..i], parse) == Some(keyed)
    {
      assert blocks[..i + 1][..i] == blocks[..i];
      var block := WithNewline(blocks[i]);
      var parsed := parse(block);
      if parsed.None? {
        UnparsedStays(blocks, i + 1, parse);
        return Exit;
      }
      keyed := keyed + [Block(parsed.value.key, parsed.value.value, block)];
    }
    assert blocks[..|blocks|] == blocks;
    r := Split(pre, keyed);
  }

  lemma {:induction false} MarkedStays(ls: seq<string>, n: nat)
    requires n <= |ls| && Group(ls[..n]).Marked?
    ensures Group(ls).Marked?
    decreases |ls|
  {
    if n < |ls| {
      assert ls[..|ls| - 1][..n] == ls[..n];
      MarkedStays(ls[..|ls| - 1], n);
    } else {
      assert ls[..n] == ls;
    }
  }

  lemma {:induction false} UnparsedStays(bs: seq<string>, n: nat, parse: string -> Option<Entry>)
    requires n <= |bs| && Keyed(bs[..n], parse).None?
    ensures Keyed(bs, parse).None?
    decreases |bs|
  {
    if n < |bs| {
      assert bs[..|bs| - 1][..n] == bs[..n];
      UnparsedStays(bs[..|bs| - 1], n, parse);
    } else {
      assert bs[..n] == bs;
    }
  }
}
