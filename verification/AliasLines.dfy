/** Splitting a text into lines with their ends kept, and lines into a preamble and key blocks. */
module AliasLines {

  /** Characters that end a line for `splitlines`. */
  predicate IsEnd(c: char) {
    c in {'\n', '\r', '\U{0b}', '\U{0c}', '\U{1c}', '\U{1d}', '\U{1e}', '\U{85}', '\U{2028}', '\U{2029}'}
  }

  /** Length of the first line of a non-empty text; a carriage return and a newline end one line together. */
  function FirstLine(t: string): (n: nat)
    requires t != ""
    ensures 0 < n <= |t|
  {
    if t[0] == '\r' && |t| > 1 && t[1] == '\n' then 2
    else if IsEnd(t[0]) || |t| == 1 then 1
    else 1 + FirstLine(t[1..])
  }

  function SplitLines(t: string): seq<string>
    decreases |t|
  {
    if t == "" then [] else [t[..FirstLine(t)]] + SplitLines(t[FirstLine(t)..])
  }

  function Join(ls: seq<string>): string {
    if ls == [] then "" else ls[0] + Join(ls[1..])
  }

  lemma {:induction false} JoinAppend(a: seq<string>, b: seq<string>)
    ensures Join(a + b) == Join(a) + Join(b)
  {
    if a == [] {
      assert a + b == b;
    } else {
      assert (a + b)[1..] == a[1..] + b;
      JoinAppend(a[1..], b);
    }
  }

  /** Nothing is lost by splitting. */
  lemma {:induction false} JoinSplit(t: string)
    ensures Join(SplitLines(t)) == t
    decreases |t|
  {
    if t != "" {
      var n := FirstLine(t);
      JoinSplit(t[n..]);
      assert SplitLines(t)[1..] == SplitLines(t[n..]);
    }
  }

  /** The line is ended, and a following text that starts with a newline would not be swallowed by it. */
  predicate Ended(l: string, next: string) {
    l != "" && IsEnd(l[|l| - 1]) && !(l[|l| - 1] == '\r' && next != "" && next[0] == '\n')
  }

  /** A line end breaks the text: what follows does not change the first line. */
  lemma {:induction false} FirstLineStable(a: string, b: string)
    requires a != "" && Ended(a, b)
    ensures FirstLine(a + b) == FirstLine(a)
    ensures FirstLine(a) < |a| ==> Ended(a[FirstLine(a)..], b)
    decreases |a|
  {
    var t := a + b;
    assert t[0] == a[0];
    if a[0] == '\r' && |a| > 1 && a[1] == '\n' {
      assert t[1] == '\n';
    } else if IsEnd(a[0]) || |a| == 1 {
      assert |a| > 1 ==> t[1] == a[1];
      assert |a| == 1 && |t| > 1 ==> t[1] == b[0];
    } else {
      assert t[1..] == a[1..] + b;
      FirstLineStable(a[1..], b);
      assert a[1..][FirstLine(a[1..])..] == a[FirstLine(a)..];
    }
  }

  /** Splitting commutes with concatenation at a line end. */
  lemma {:induction false} SplitAppend(a: string, b: string)
    requires a == "" || Ended(a, b)
    ensures SplitLines(a + b) == SplitLines(a) + SplitLines(b)
    decreases |a|
  {
    if a == "" {
      assert a + b == b;
    } else {
      var n := FirstLine(a);
      FirstLineStable(a, b);
      CutSum(a, b, n);
      SplitAppend(a[n..], b);
      Prepend(a[..n], SplitLines(a[n..]), SplitLines(b));
    }
  }

  lemma CutSum(a: string, b: string, n: nat)
    requires n <= |a|
    ensures (a + b)[..n] == a[..n] && (a + b)[n..] == a[n..] + b
  {
  }

  lemma Prepend(l: string, a: seq<string>, b: seq<string>)
    ensures [l] + (a + b) == [l] + a + b
  {
  }

  /** A single line: splitting leaves it whole. */
  predicate IsLine(l: string) {
    l != "" && FirstLine(l) == |l|
  }

  lemma IsLineSplits(l: string)
    requires IsLine(l)
    ensures SplitLines(l) == [l]
  {
    assert l[..|l|] == l && l[|l|..] == "";
    assert SplitLines("") == [];
  }

  lemma {:induction false} FirstLineIsLine(t: string)
    requires t != ""
    ensures IsLine(t[..FirstLine(t)])
    ensures FirstLine(t) < |t| ==> Ended(t[..FirstLine(t)], t[FirstLine(t)..])
    decreases |t|
  {
    if !(t[0] == '\r' && |t| > 1 && t[1] == '\n') && !(IsEnd(t[0]) || |t| == 1) {
      FirstLineIsLine(t[1..]);
      var n := FirstLine(t[1..]);
      assert t[..n + 1][1..] == t[1..][..n];
      assert t[1..][n..] == t[n + 1..];
      assert t[..n + 1][n] == t[1..][..n][n - 1];
    }
  }

  /** Lines as `splitlines` produces them: whole, and ended where another one follows. */
  ghost predicate Proper(ls: seq<string>) {
    && (forall i :: 0 <= i < |ls| ==> IsLine(ls[i]))
    && (forall i :: 0 <= i < |ls| - 1 ==> Ended(ls[i], ls[i + 1]))
  }

  lemma {:induction false} SplitProper(t: string)
    ensures Proper(SplitLines(t))
    decreases |t|
  {
    if t != "" {
      var n := FirstLine(t);
      FirstLineIsLine(t);
      SplitProper(t[n..]);
      var rest := SplitLines(t[n..]);
      if rest != [] {
        assert rest[0] == t[n..][..FirstLine(t[n..])];
        assert rest[0][0] == t[n..][0];
      }
    }
  }

  lemma {:induction false} SplitJoin(ls: seq<string>)
    requires Proper(ls)
    ensures SplitLines(Join(ls)) == ls
  {
    if ls == [] {
      assert SplitLines("") == [];
    } else {
      SplitJoin(ls[1..]);
      IsLineSplits(ls[0]);
      if |ls| == 1 {
        assert Join(ls[1..]) == "" && ls[0] + "" == ls[0];
      } else {
        assert Ended(ls[0], ls[1]);
        assert Join(ls[1..])[0] == ls[1][0];
        SplitAppend(ls[0], Join(ls[1..]));
      }
      assert [ls[0]] + ls[1..] == ls;
    }
  }

  // ---- grouping lines into blocks ----

  /** An unindented line that is no comment and not blank starts a block. */
  predicate StartsKey(l: string) {
    l != "" && l[0] !in {' ', '\t', '#', '\n', '\r'}
  }

  predicate IsMarker(l: string) {
    |l| >= 3 && (l[..3] == "---" || l[..3] == "...")
  }

  datatype Grouped = Grouped(pre: string, blocks: seq<string>) | Marked

  function AddLine(g: Grouped, l: string): Grouped {
    if g.Marked? then Marked
    else if StartsKey(l) then (if IsMarker(l) then Marked else g.(blocks := g.blocks + [l]))
    else if g.blocks != [] then
      var n := |g.blocks| - 1;
      g.(blocks := g.blocks[..n] + [g.blocks[n] + l])
    else g.(pre := g.pre + l)
  }

  function Group(ls: seq<string>): Grouped {
    if ls == [] then Grouped("", []) else AddLine(Group(ls[..|ls| - 1]), ls[|ls| - 1])
  }

  ghost predicate NoKeys(ls: seq<string>) {
    forall i :: 0 <= i < |ls| ==> !StartsKey(ls[i])
  }

  /** A block's lines: a key line that is no document marker, then lines that start no key. */
  ghost predicate BlockLines(ls: seq<string>) {
    ls != [] && StartsKey(ls[0]) && !IsMarker(ls[0]) && NoKeys(ls[1..])
  }

  /** The text of one complete block. */
  ghost predicate Solid(b: string) {
    BlockLines(SplitLines(b)) && b[|b| - 1] == '\n'
  }

  /** A text without key lines, closed so that a block can follow it. */
  ghost predicate Preamble(p: string) {
    NoKeys(SplitLines(p))
  }

  predicate Closed(p: string) {
    p == "" || IsEnd(p[|p| - 1])
  }

  lemma {:induction false} GroupPreamble(ls: seq<string>)
    requires NoKeys(ls)
    ensures Group(ls) == Grouped(Join(ls), [])
  {
    if ls != [] {
      var n := |ls| - 1;
      GroupPreamble(ls[..n]);
      JoinSnoc(ls);
    }
  }

  lemma JoinSnoc(ls: seq<string>)
    requires ls != []
    ensures Join(ls) == Join(ls[..|ls| - 1]) + ls[|ls| - 1]
  {
    var n := |ls| - 1;
    assert ls == ls[..n] + [ls[n]];
    JoinAppend(ls[..n], [ls[n]]);
    assert Join([ls[n]]) == ls[n] + Join([]);
  }

  /** Reading a block's lines adds exactly that block. */
  lemma {:induction false} GroupBlock(before: seq<string>, ls: seq<string>)
    requires BlockLines(ls) && Group(before).Grouped?
    ensures Group(before + ls) == Group(before).(blocks := Group(before).blocks + [Join(ls)])
    decreases |ls|
  {
    var n := |ls| - 1;
    assert (before + ls)[..|before| + n] == before + ls[..n];
    assert (before + ls)[|before| + n] == ls[n];
    JoinSnoc(ls);
    if n == 0 {
      assert before + ls[..0] == before && ls[..0] == [];
      assert Join(ls) == ls[0];
    } else {
      assert !StartsKey(ls[1..][n - 1]);
      assert BlockLines(ls[..n]) by {
        assert ls[..n][1..] == ls[1..][..n - 1];
      }
      GroupBlock(before, ls[..n]);
      var bs := Group(before).blocks + [Join(ls[..n])];
      assert bs[..|bs| - 1] == Group(before).blocks;
    }
  }

  ghost predicate AllSolid(bs: seq<string>) {
    forall b :: b in bs ==> Solid(b)
  }

  /** The round trip: a closed preamble followed by complete blocks is split back into exactly those. */
  lemma {:induction false} GroupConcat(p: string, bs: seq<string>)
    requires Preamble(p) && (bs == [] || Closed(p)) && AllSolid(bs)
    ensures Group(SplitLines(p + Join(bs))) == Grouped(p, bs)
    decreases |bs|
  {
    if bs == [] {
      assert p + Join(bs) == p;
      GroupPreamble(SplitLines(p));
      JoinSplit(p);
    } else {
      var init, b := bs[..|bs| - 1], bs[|bs| - 1];
      assert init + [b] == bs;
      GroupConcat(p, init);
      GroupConcatStep(p, init, b);
    }
  }

  lemma GroupConcatStep(p: string, bs: seq<string>, b: string)
    requires Closed(p) && AllSolid(bs) && Solid(b) && Group(SplitLines(p + Join(bs))) == Grouped(p, bs)
    ensures Group(SplitLines(p + Join(bs + [b]))) == Grouped(p, bs + [b])
  {
    SolidStarts(b);
    HeadEnded(p, bs, b);
    GroupOneMore(p + Join(bs), b);
    JoinOneMore(p, bs, b);
  }

  lemma JoinOneMore(p: string, bs: seq<string>, b: string)
    ensures p + Join(bs + [b]) == p + Join(bs) + b
  {
    JoinAppend(bs, [b]);
    assert Join([b]) == b + Join([]);
  }

  lemma GroupOneMore(head: string, b: string)
    requires Solid(b) && (head == "" || Ended(head, b)) && Group(SplitLines(head)).Grouped?
    ensures var g := Group(SplitLines(head)); Group(SplitLines(head + b)) == g.(blocks := g.blocks + [b])
  {
    SplitAppend(head, b);
    GroupBlock(SplitLines(head), SplitLines(b));
    JoinSplit(b);
  }

  lemma SolidStarts(b: string)
    requires Solid(b)
    ensures b != "" && b[0] != '\n'
  {
    assert SplitLines("") == [];
    assert SplitLines(b)[0] == b[..FirstLine(b)];
  }

  lemma HeadEnded(p: string, bs: seq<string>, next: string)
    requires Closed(p) && AllSolid(bs) && next != "" && next[0] != '\n'
    ensures var head := p + Join(bs); head == "" || Ended(head, next)
  {
    if bs != [] {
      JoinSnoc(bs);
      SolidStarts(bs[|bs| - 1]);
      var b := bs[|bs| - 1];
      var head := p + Join(bs);
      assert head[|head| - 1] == b[|b| - 1];
    } else {
      assert p + Join(bs) == p;
    }
  }
}
