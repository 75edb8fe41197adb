/** One pass of the automaton over a buffer, proved against the substring specification. */
module Scan {
  import opened Options
  import opened Words
  import opened Patterns
  import opened Tries
  import opened FailLinks
  import opened Automaton
  import opened ScanSpec

  /** The state after reading `data`, one table lookup per byte. */
  ghost function Run(m: Machine, data: Word): (s: nat)
    requires 0 < m.nstates && m.nstates * 256 <= |m.next|
    requires forall u: nat, c: Byte {:trigger Cell(m.next, u, c)} :: u < m.nstates ==> Cell(m.next, u, c) < m.nstates
    ensures s < m.nstates
    decreases |data|
  {
    if data == [] then 0 else Cell(m.next, Run(m, data[..|data| - 1]), data[|data| - 1])
  }

  lemma {:induction false} RunIsNode(m: Machine, t: Trie, sigs: seq<Pattern>, terms: seq<Pattern>, data: Word)
    requires Recognises(m, t, sigs, terms)
    ensures t.text[Run(m, data)] == Longest(t.id.Keys, data)
    decreases |data|
  {
    if data != [] {
      var n := |data| - 1;
      RunIsNode(m, t, sigs, terms, data[..n]);
      assert data == data[..n] + [data[n]];
      LongestStep(t.id.Keys, data[..n], data[n]);
    }
  }

  /** After any text the state is the node of its longest suffix that is a prefix of some pattern. */
  lemma StateIsLongestSuffix(m: Machine, tbl: Table, fl: Flavour, data: Word)
    requires Faithful(m, tbl, fl)
    ensures TableTrie(tbl, fl).text[Run(m, data)] == Longest(Prefixes(AllPatterns(tbl, fl)), data)
  {
    RunIsNode(m, TableTrie(tbl, fl), SigPatterns(tbl.cats, fl), TermPatterns(tbl.rules, fl), data);
    TrieStates(AllPatterns(tbl, fl));
  }

  lemma EndingOfLongest(t: Trie, pats: seq<Pattern>, data: Word)
    requires Fits(t, pats)
    ensures BitsEnding(pats, Longest(t.id.Keys, data)) == BitsEnding(pats, data)
  {
    forall p | p in pats
      ensures IsSuffix(p.word, data) <==> IsSuffix(p.word, Longest(t.id.Keys, data))
    {
      SuffixOfLongest(t.id.Keys, p.word, data);
    }
  }

  /** The masks of that state are exactly the categories and terms that end the text. */
  lemma MasksAreExact(m: Machine, tbl: Table, fl: Flavour, data: Word)
    requires tbl.Valid() && Faithful(m, tbl, fl)
    ensures m.out[Run(m, data)] == BitsEnding(SigPatterns(tbl.cats, fl), data)
    ensures m.rout[Run(m, data)] == BitsEnding(TermPatterns(tbl.rules, fl), data)
  {
    StateIsLongestSuffix(m, tbl, fl, data);
    TrieStates(AllPatterns(tbl, fl));
    TableFits(tbl, fl);
    EndingOfLongest(TableTrie(tbl, fl), SigPatterns(tbl.cats, fl), data);
    EndingOfLongest(TableTrie(tbl, fl), TermPatterns(tbl.rules, fl), data);
  }

  lemma BitMeansCategory(tbl: Table, fl: Flavour, w: Word, b: nat)
    ensures b in BitsEnding(SigPatterns(tbl.cats, fl), w) <==>
            exists i: nat ::
              i < |tbl.cats| && tbl.cats[i].cat == b && fl in tbl.cats[i].flavours && EndsIn(tbl.cats[i], w)
  {
    if b in BitsEnding(SigPatterns(tbl.cats, fl), w) {
      var p :| p in SigPatterns(tbl.cats, fl) && IsSuffix(p.word, w) && p.bit == b;
      SigPatternsMembers(tbl.cats, fl, p);
      var i: nat :| i < |tbl.cats| && fl in tbl.cats[i].flavours
                    && p.bit == tbl.cats[i].cat && p.word in tbl.cats[i].sigs;
      assert EndsIn(tbl.cats[i], w);
    }
    if i: nat :| i < |tbl.cats| && tbl.cats[i].cat == b && fl in tbl.cats[i].flavours && EndsIn(tbl.cats[i], w) {
      var j :| 0 <= j < |tbl.cats[i].sigs| && IsSuffix(tbl.cats[i].sigs[j], w);
      SigPatternsMembers(tbl.cats, fl, Pattern(tbl.cats[i].sigs[j], b));
    }
  }

  /** The live bits of a state are the ids of the rows that fire. */
  lemma LiveRows(tbl: Table, fl: Flavour, skip: set<nat>, w: Word, row: seq<nat>)
    requires tbl.Valid() && RowsOk(tbl, fl, row)
    ensures forall b :: b in BitsEnding(SigPatterns(tbl.cats, fl), w) - skip ==>
                          b < 64 && row[b] < |tbl.cats| && Fires(tbl, fl, skip, w, row[b])
    ensures forall i: nat :: i < |tbl.cats| && Fires(tbl, fl, skip, w, i) ==>
                               && tbl.cats[i].cat in BitsEnding(SigPatterns(tbl.cats, fl), w) - skip
                               && row[tbl.cats[i].cat] == i
  {
    forall b | b in BitsEnding(SigPatterns(tbl.cats, fl), w) - skip
      ensures b < 64 && row[b] < |tbl.cats| && Fires(tbl, fl, skip, w, row[b])
    {
      BitMeansCategory(tbl, fl, w, b);
      var i: nat :| i < |tbl.cats| && tbl.cats[i].cat == b && fl in tbl.cats[i].flavours && EndsIn(tbl.cats[i], w);
      assert Mapped(tbl, row, i);
    }
    forall i: nat | i < |tbl.cats| && Fires(tbl, fl, skip, w, i)
      ensures tbl.cats[i].cat in BitsEnding(SigPatterns(tbl.cats, fl), w) - skip && row[tbl.cats[i].cat] == i
    {
      BitMeansCategory(tbl, fl, w, tbl.cats[i].cat);
      assert Mapped(tbl, row, i);
    }
  }

  /** Index of the lowest set bit. */
  method LowestBit(m: Mask) returns (n: nat)
    requires m != {}
    ensures n in m && forall b :: b in m ==> n <= b
  {
    n := 0;
    while n !in m
      invariant forall b :: b in m ==> n <= b
      invariant n <= 64
      decreases 64 - n
    {
      n := n + 1;
      if n == 64 {
        var b :| b in m;
      }
    }
  }

  /** The lowest table row among the live bits. */
  method BestRow(row: seq<nat>, mask: Mask, ncats: nat) returns (best: nat)
    requires |row| == 64 && forall b :: b in mask ==> row[b] < ncats
    ensures mask != {} ==> exists b :: b in mask && row[b] == best
    ensures mask == {} ==> best == ncats
    ensures forall b :: b in mask ==> best <= row[b]
  {
    best := ncats;
    var live: Mask := mask;
    while live != {}
      invariant live <= mask && best <= ncats
      invariant forall b :: b in mask - live ==> best <= row[b]
      invariant best == ncats ==> live == mask
      invariant best < ncats ==> exists b :: b in mask && row[b] == best
      decreases |live|
    {
      var b := LowestBit(live);
      if row[b] < best {
        best := row[b];
      }
      live := live - {b};
    }
  }

  /** The term bits seen in the first `n` bytes. */
  ghost predicate SeenUpTo(terms: seq<Pattern>, data: Word, n: nat, seen: set<nat>)
    requires n <= |data|
  {
    forall b :: b in seen <==> exists k :: 0 <= k <= n && b in BitsEnding(terms, data[..k])
  }

  lemma SeenStep(terms: seq<Pattern>, data: Word, n: nat, seen: set<nat>)
    requires n < |data| && SeenUpTo(terms, data, n, seen)
    ensures SeenUpTo(terms, data, n + 1, seen + BitsEnding(terms, data[..n + 1]))
  {
    var more := seen + BitsEnding(terms, data[..n + 1]);
    forall b, k | 0 <= k <= n + 1 && b in BitsEnding(terms, data[..k]) ensures b in more {
      assert k <= n ==> b in seen;
    }
  }

  lemma SeenNothing(tbl: Table, fl: Flavour, data: Word)
    requires tbl.Valid()
    ensures SeenUpTo(TermPatterns(tbl.rules, fl), data, 0, {})
  {
    TableFits(tbl, fl);
    EmptyEnding(TableTrie(tbl, fl), TermPatterns(tbl.rules, fl));
    assert data[..0] == [];
  }

  /** A term bit was seen exactly when the term with that id occurs. */
  lemma TermSeen(tbl: Table, fl: Flavour, data: Word, seen: set<nat>, i: nat, j: nat)
    requires i < |tbl.rules| && fl in tbl.rules[i].flavours && j < |tbl.rules[i].terms|
    requires SeenUpTo(TermPatterns(tbl.rules, fl), data, |data|, seen)
    ensures TermCount(tbl.rules[..i]) + j in seen <==> Occurs(tbl.rules[i].terms[j], data)
  {
    var terms := TermPatterns(tbl.rules, fl);
    var b := TermCount(tbl.rules[..i]) + j;
    var p := Pattern(tbl.rules[i].terms[j], b);
    TermPatternsMembers(tbl.rules, fl, p);
    assert IsTerm(tbl.rules, fl, i, p);
    if b in seen {
      var k :| 0 <= k <= |data| && b in BitsEnding(terms, data[..k]);
      var q :| q in terms && IsSuffix(q.word, data[..k]) && q.bit == b;
      TermIdsDisjoint(tbl.rules, fl, i, p, q);
    }
    if Occurs(p.word, data) {
      var k :| 0 <= k <= |data| && IsSuffix(p.word, data[..k]);
      assert b in BitsEnding(terms, data[..k]);
    }
  }

  lemma TermIdsDisjoint(rules: seq<Rule>, fl: Flavour, i: nat, p: Pattern, q: Pattern)
    requires i < |rules| && IsTerm(rules, fl, i, p) && q in TermPatterns(rules, fl) && q.bit == p.bit
    ensures q == p
  {
    TermPatternsMembers(rules, fl, q);
    var h: nat :| h < |rules| && IsTerm(rules, fl, h, q);
    if h < i {
      TermCountMonotone(rules, h, i);
    } else if i < h {
      TermCountMonotone(rules, i, h);
    }
  }

  /** The mask test of a rule is the co-occurrence of its terms. */
  lemma NeedMeansFires(tbl: Table, fl: Flavour, skip: set<nat>, data: Word, seen: set<nat>, i: nat)
    requires i < |tbl.rules| && SeenUpTo(TermPatterns(tbl.rules, fl), data, |data|, seen)
    ensures RuleFires(tbl, fl, skip, data, i) <==>
            RuleBits(tbl, fl, i) != {} && RuleBits(tbl, fl, i) <= seen && tbl.rules[i].cat !in skip
  {
    var r := tbl.rules[i];
    var base := TermCount(tbl.rules[..i]);
    if fl in r.flavours {
      forall j: nat | j < |r.terms| ensures base + j in seen <==> Occurs(r.terms[j], data) {
        TermSeen(tbl, fl, data, seen, i, j);
      }
      if r.terms != [] {
        assert base in RuleBits(tbl, fl, i);
      }
      if RuleBits(tbl, fl, i) <= seen {
        forall t | t in r.terms ensures Occurs(t, data) {
          var j: nat :| j < |r.terms| && r.terms[j] == t;
          assert base + j in RuleBits(tbl, fl, i);
        }
      }
      if forall t :: t in r.terms ==> Occurs(t, data) {
        forall b | b in RuleBits(tbl, fl, i) ensures b in seen {
          assert Occurs(r.terms[b - base], data);
        }
      }
    }
  }

  /** The first AND-rule whose terms were all seen, that is not skipped and has a row to report. */
  method DecideRules(m: Machine, tbl: Table, fl: Flavour, data: Word, skip: Mask, seen: Mask)
    returns (r: Option<nat>)
    requires tbl.Valid() && RulesOk(m, tbl, fl)
    requires SeenUpTo(TermPatterns(tbl.rules, fl), data, |data|, seen)
    ensures r.None? ==> NoRule(tbl, fl, skip, data)
    ensures r.Some? ==> RuleHit(tbl, fl, skip, data, r.value)
  {
    if seen == {} {
      NothingSeen(tbl, fl, skip, data);
      return None;
    }
    for i := 0 to |tbl.rules|
      invariant forall h: nat :: h < i ==> !RuleDecides(tbl, fl, skip, data, h)
    {
      NeedMeansFires(tbl, fl, skip, data, seen, i);
      if m.need[i] != {} && m.need[i] <= seen && tbl.rules[i].cat !in skip {
        var row := m.row[tbl.rules[i].cat];
        RuleRow(tbl, fl, m.row, i);
        if row < |tbl.cats| {
          assert Reports(tbl, i, row);
          return Some(row);
        }
      }
    }
    r := None;
  }

  lemma NothingSeen(tbl: Table, fl: Flavour, skip: set<nat>, data: Word)
    requires SeenUpTo(TermPatterns(tbl.rules, fl), data, |data|, {})
    ensures NoRule(tbl, fl, skip, data)
  {
    forall i: nat | i < |tbl.rules| ensures !RuleDecides(tbl, fl, skip, data, i) {
      NeedMeansFires(tbl, fl, skip, data, {}, i);
    }
  }

  lemma RuleRow(tbl: Table, fl: Flavour, row: seq<nat>, i: nat)
    requires tbl.Valid() && RowsOk(tbl, fl, row) && i < |tbl.rules| && fl in tbl.rules[i].flavours
    ensures row[tbl.rules[i].cat] < |tbl.cats| ==> Reports(tbl, i, row[tbl.rules[i].cat])
    ensures row[tbl.rules[i].cat] >= |tbl.cats| ==> forall j :: !Reports(tbl, i, j)
  {
    forall j | Reports(tbl, i, j) ensures row[tbl.rules[i].cat] == j {
      assert Mapped(tbl, row, j);
    }
  }

  /** One byte is one table lookup. */
  lemma RunStep(m: Machine, tbl: Table, fl: Flavour, data: Word, i: nat)
    requires Faithful(m, tbl, fl) && i < |data|
    ensures Run(m, data[..i]) < m.nstates && m.nstates * 256 <= |m.next|
    ensures Run(m, data[..i + 1]) == m.next[Run(m, data[..i]) * 256 + data[i]]
  {
    assert data[..i + 1][..i] == data[..i];
  }

  /** The terms seen after one more byte. */
  lemma SeenAfter(m: Machine, tbl: Table, fl: Flavour, data: Word, i: nat, seen: set<nat>)
    requires tbl.Valid() && Faithful(m, tbl, fl) && i < |data|
    requires SeenUpTo(TermPatterns(tbl.rules, fl), data, i, seen)
    ensures SeenUpTo(TermPatterns(tbl.rules, fl), data, i + 1, seen + m.rout[Run(m, data[..i + 1])])
  {
    MasksAreExact(m, tbl, fl, data[..i + 1]);
    SeenStep(TermPatterns(tbl.rules, fl), data, i, seen);
  }

  /** The lowest row that fires in state `s`, the state after `w`; the table size when none does. */
  method Decide(m: Machine, tbl: Table, fl: Flavour, skip: Mask, s: nat, ghost w: Word) returns (best: nat)
    requires tbl.Valid() && Faithful(m, tbl, fl) && s == Run(m, w)
    ensures best < |tbl.cats| ==> LowestRow(tbl, fl, skip, w, best)
    ensures best >= |tbl.cats| ==> Quiet(tbl, fl, skip, w)
  {
    MasksAreExact(m, tbl, fl, w);
    LiveRows(tbl, fl, skip, w, m.row);
    best := BestRow(m.row, m.out[s] - skip, |tbl.cats|);
  }

  /** The byte loop: the first standalone hit, or all the rule terms of the buffer. */
  method ScanSignatures(m: Machine, tbl: Table, fl: Flavour, data: Word, skip: Mask)
    returns (hit: Option<nat>, seen: Mask)
    requires tbl.Valid() && Faithful(m, tbl, fl)
    ensures hit.Some? ==> SignatureHit(tbl, fl, skip, data, hit.value)
    ensures hit.None? ==> QuietUpTo(tbl, fl, skip, data, |data|)
    ensures hit.None? ==> SeenUpTo(TermPatterns(tbl.rules, fl), data, |data|, seen)
  {
    var s: nat := 0;
    seen := {};
    SeenNothing(tbl, fl, data);
    for i := 0 to |data|
      invariant s == Run(m, data[..i]) && QuietUpTo(tbl, fl, skip, data, i)
      invariant SeenUpTo(TermPatterns(tbl.rules, fl), data, i, seen)
    {
      RunStep(m, tbl, fl, data, i);
      SeenAfter(m, tbl, fl, data, i, seen);
      s := m.next[s * 256 + data[i]];
      seen := seen + m.rout[s];
      var best := Decide(m, tbl, fl, skip, s, data[..i + 1]);
      if best < |tbl.cats| {
        return Some(best), seen;
      }
    }
    hit := None;
  }

  lemma HitIsLoud(tbl: Table, fl: Flavour, skip: set<nat>, data: Word, row: nat)
    requires SignatureHit(tbl, fl, skip, data, row)
    ensures !QuietUpTo(tbl, fl, skip, data, |data|)
  {
    var k :| 0 < k <= |data| && QuietUpTo(tbl, fl, skip, data, k - 1) && LowestRow(tbl, fl, skip, data[..k], row);
    assert !Quiet(tbl, fl, skip, data[..k]);
  }

  /** A single pass over the buffer gives the answer of the substring search. */
  method AcScan(m: Machine, tbl: Table, fl: Flavour, data: Word, skip: Mask) returns (r: Option<nat>)
    requires tbl.Valid() && (m.nstates == 0 || Faithful(m, tbl, fl))
    ensures m.nstates == 0 ==> r == None
    ensures m.nstates != 0 ==> Answer(tbl, fl, skip, data, r)
  {
    if m.nstates == 0 {
      return None;
    }
    var hit, seen := ScanSignatures(m, tbl, fl, data, skip);
    if hit.Some? {
      HitIsLoud(tbl, fl, skip, data, hit.value);
      return hit;
    }
    r := DecideRules(m, tbl, fl, data, skip, seen);
  }
}
