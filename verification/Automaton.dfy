/** Building the Aho-Corasick automaton of one buffer flavour. */
module Automaton {
  import opened Words
  import opened Patterns
  import opened Tries
  import opened FailLinks

  const MAX_STATES := 65535

  /** Read-only after the build; `nstates == 0` means "never built". */
  datatype Machine = Machine(next: seq<nat>, out: seq<Mask>, rout: seq<Mask>, row: seq<nat>,
                             need: seq<Mask>, nstates: nat)

  datatype Built = Ok(machine: Machine) | Error

  ghost function AllPatterns(tbl: Table, fl: Flavour): seq<Pattern> {
    SigPatterns(tbl.cats, fl) + TermPatterns(tbl.rules, fl)
  }

  ghost predicate RowRange(tbl: Table, row: seq<nat>) {
    && |row| == 64
    && forall c :: 0 <= c < 64 ==> row[c] <= |tbl.cats| && (row[c] < |tbl.cats| ==> tbl.cats[row[c]].cat == c)
  }

  /** Row `j` is mapped from its own id. */
  ghost predicate Mapped(tbl: Table, row: seq<nat>, j: nat)
    requires |row| == 64 && j < |tbl.cats|
  {
    tbl.cats[j].cat < 64 ==> row[tbl.cats[j].cat] == j
  }

  /** The rows of the first `n` categories, and those reported by the first `k` rules, are mapped. */
  ghost predicate RowsUpTo(tbl: Table, fl: Flavour, row: seq<nat>, n: nat, k: nat)
    requires |row| == 64 && n <= |tbl.cats| && k <= |tbl.rules|
  {
    && (forall j: nat :: j < n && fl in tbl.cats[j].flavours ==> Mapped(tbl, row, j))
    && (forall i: nat, j: nat :: i < k && fl in tbl.rules[i].flavours && j < |tbl.cats| ==>
          (tbl.cats[j].cat == tbl.rules[i].cat ==> Mapped(tbl, row, j)))
  }

  /** The table row of each category id that this automaton can report. */
  ghost predicate RowsOk(tbl: Table, fl: Flavour, row: seq<nat>) {
    RowRange(tbl, row) && RowsUpTo(tbl, fl, row, |tbl.cats|, |tbl.rules|)
  }

  ghost function BitRange(base: nat, n: nat): (r: set<nat>)
    ensures forall b :: b in r <==> base <= b < base + n
  {
    if n == 0 then {} else BitRange(base, n - 1) + {base + n - 1}
  }

  /** The term bits rule `i` waits for; empty when the rule is of the other flavour. */
  ghost function RuleBits(tbl: Table, fl: Flavour, i: nat): set<nat>
    requires i < |tbl.rules|
  {
    if fl in tbl.rules[i].flavours then BitRange(TermCount(tbl.rules[..i]), |tbl.rules[i].terms|) else {}
  }

  /** The trie of everything this automaton looks for. */
  ghost function TableTrie(tbl: Table, fl: Flavour): Trie {
    TrieStates(AllPatterns(tbl, fl));
    TrieOf(AllPatterns(tbl, fl))
  }

  /** Transitions lead to the longest suffix; masks hold exactly what ends there. */
  ghost predicate Recognises(m: Machine, t: Trie, sigs: seq<Pattern>, terms: seq<Pattern>) {
    && m.nstates == |t.text|
    && m.nstates * 256 <= |m.next| && m.nstates <= |m.out| && m.nstates <= |m.rout|
    && (forall u: nat, c: Byte {:trigger Cell(m.next, u, c)} ::
          u < m.nstates ==> Cell(m.next, u, c) == Delta(t, u, c))
    && (forall u :: 0 <= u < m.nstates ==> m.out[u] == BitsEnding(sigs, t.text[u]))
    && (forall u :: 0 <= u < m.nstates ==> m.rout[u] == BitsEnding(terms, t.text[u]))
  }

  /** The machine is the automaton of the table. */
  ghost predicate Faithful(m: Machine, tbl: Table, fl: Flavour) {
    && m.nstates <= MAX_STATES
    && Recognises(m, TableTrie(tbl, fl), SigPatterns(tbl.cats, fl), TermPatterns(tbl.rules, fl))
    && RulesOk(m, tbl, fl)
  }

  /** The side tables: category rows, and the term bits of each rule. */
  ghost predicate RulesOk(m: Machine, tbl: Table, fl: Flavour) {
    && RowsOk(tbl, fl, m.row)
    && |m.need| == |tbl.rules| && forall i :: 0 <= i < |tbl.rules| ==> m.need[i] == RuleBits(tbl, fl, i)
  }

  method CountBytes(pats: seq<Pattern>) returns (n: nat)
    ensures n == Bytes(pats)
  {
    n := 0;
    for j := 0 to |pats|
      invariant n == Bytes(pats[..j])
    {
      BytesSplit(pats, j);
      n := n + |pats[j].word|;
    }
    assert pats[..|pats|] == pats;
  }

  /** Signature bytes of this flavour. */
  method CountSigBytes(tbl: Table, fl: Flavour) returns (n: nat)
    ensures n == Bytes(SigPatterns(tbl.cats, fl))
  {
    n := 0;
    for i := 0 to |tbl.cats|
      invariant n == Bytes(SigPatterns(tbl.cats[..i], fl))
    {
      SigChunk(tbl.cats, fl, i);
      if fl in tbl.cats[i].flavours {
        var more := CountBytes(SigsOf(tbl.cats[i]));
        n := n + more;
      }
    }
    assert tbl.cats[..|tbl.cats|] == tbl.cats;
  }

  /** Term bytes of the rules of this flavour. */
  method CountTermBytes(tbl: Table, fl: Flavour) returns (n: nat)
    ensures n == Bytes(TermPatterns(tbl.rules, fl))
  {
    n := 0;
    for i := 0 to |tbl.rules|
      invariant n == Bytes(TermPatterns(tbl.rules[..i], fl))
    {
      TermChunk(tbl.rules, fl, i);
      if fl in tbl.rules[i].flavours {
        var more := CountBytes(TermsOf(tbl.rules[i], TermCount(tbl.rules[..i])));
        n := n + more;
      }
    }
    assert tbl.rules[..|tbl.rules|] == tbl.rules;
  }

  /** Upper bound on the number of states: one per pattern byte, plus the root. */
  method CountStates(tbl: Table, fl: Flavour) returns (cap: nat)
    ensures cap == 1 + Bytes(AllPatterns(tbl, fl))
  {
    var sigs := CountSigBytes(tbl, fl);
    var terms := CountTermBytes(tbl, fl);
    BytesAppend(SigPatterns(tbl.cats, fl), TermPatterns(tbl.rules, fl));
    cap := 1 + sigs + terms;
  }

  method CountTerms(tbl: Table) returns (term: nat)
    ensures term == TermCount(tbl.rules)
  {
    term := 0;
    for i := 0 to |tbl.rules|
      invariant term == TermCount(tbl.rules[..i])
    {
      assert tbl.rules[..i + 1][..i] == tbl.rules[..i];
      term := term + |tbl.rules[i].terms|;
    }
    assert tbl.rules[..|tbl.rules|] == tbl.rules;
  }

  /** First table row that carries a category id, or the table size. */
  method FindRow(tbl: Table, cat: nat) returns (j: nat)
    ensures j <= |tbl.cats| && (j < |tbl.cats| ==> tbl.cats[j].cat == cat)
    ensures forall h :: 0 <= h < j ==> tbl.cats[h].cat != cat
  {
    j := 0;
    while j < |tbl.cats| && tbl.cats[j].cat != cat
      invariant j <= |tbl.cats| && forall h :: 0 <= h < j ==> tbl.cats[h].cat != cat
    {
      j := j + 1;
    }
  }

  /** Pointing an id at the only row that carries it unmaps nothing. */
  lemma SetRow(tbl: Table, fl: Flavour, row: seq<nat>, n: nat, k: nat, j: nat)
    requires tbl.Valid() && RowRange(tbl, row) && n <= |tbl.cats| && k <= |tbl.rules| && j < |tbl.cats|
    requires RowsUpTo(tbl, fl, row, n, k)
    ensures RowRange(tbl, row[tbl.cats[j].cat := j])
    ensures RowsUpTo(tbl, fl, row[tbl.cats[j].cat := j], n, k)
    ensures Mapped(tbl, row[tbl.cats[j].cat := j], j)
  {
  }

  /** Reverse index from accepting bit to table row, for the categories and the rules of this flavour. */
  method BuildRows(tbl: Table, fl: Flavour) returns (row: seq<nat>)
    requires tbl.Valid()
    ensures RowsOk(tbl, fl, row)
  {
    row := seq(64, _ => |tbl.cats|);
    for i := 0 to |tbl.cats|
      invariant RowRange(tbl, row) && RowsUpTo(tbl, fl, row, i, 0)
    {
      if fl in tbl.cats[i].flavours {
        SetRow(tbl, fl, row, i, 0, i);
        row := row[tbl.cats[i].cat := i];
      }
    }
    for i := 0 to |tbl.rules|
      invariant RowRange(tbl, row) && RowsUpTo(tbl, fl, row, |tbl.cats|, i)
    {
      if fl in tbl.rules[i].flavours {
        var j := FindRow(tbl, tbl.rules[i].cat);
        if j < |tbl.cats| {
          SetRow(tbl, fl, row, |tbl.cats|, i, j);
          row := row[tbl.rules[i].cat := j];
        }
      }
    }
  }

  method BuildNeed(tbl: Table, fl: Flavour) returns (need: seq<Mask>)
    requires TermCount(tbl.rules) <= 64
    ensures |need| == |tbl.rules| && forall i :: 0 <= i < |tbl.rules| ==> need[i] == RuleBits(tbl, fl, i)
  {
    need := [];
    var term := 0;
    for i := 0 to |tbl.rules|
      invariant |need| == i && term == TermCount(tbl.rules[..i])
      invariant forall k :: 0 <= k < i ==> need[k] == RuleBits(tbl, fl, k)
    {
      var bits: Mask := {};
      ghost var base := term;
      assert tbl.rules[..i + 1][..i] == tbl.rules[..i];
      assert tbl.rules[..|tbl.rules|] == tbl.rules;
      TermCountMonotone(tbl.rules, i, |tbl.rules|);
      for j := 0 to |tbl.rules[i].terms|
        invariant term == base + j
        invariant bits == if fl in tbl.rules[i].flavours then BitRange(base, j) else {}
      {
        if fl in tbl.rules[i].flavours {
          bits := bits + {term};
        }
        term := term + 1;
      }
      need := need + [bits];
    }
  }

  /** Insert a run of patterns; `all` is everything inserted so far, `accepted` what `out` records. */
  method AddPatterns(next: array<nat>, out: array<Mask>, pats: seq<Pattern>, nstates: nat,
                     ghost all: seq<Pattern>, ghost accepted: seq<Pattern>)
    returns (n: nat)
    requires forall p :: p in pats ==> p.bit < 64
    requires nstates == |TrieOf(all).text| && GotoTable(TrieOf(all), next[..])
    requires (nstates + Bytes(pats)) * 256 <= next.Length && nstates + Bytes(pats) <= out.Length
    requires AcceptsOwn(TrieOf(all), out[..], accepted) && forall q :: q in accepted ==> q in all
    modifies next, out
    ensures n == |TrieOf(all + pats).text| <= nstates + Bytes(pats)
    ensures GotoTable(TrieOf(all + pats), next[..]) && AcceptsOwn(TrieOf(all + pats), out[..], accepted + pats)
  {
    n := nstates;
    ghost var acc, have := accepted, all;
    for j := 0 to |pats|
      invariant acc == accepted + pats[..j] && have == all + pats[..j]
      invariant n == |TrieOf(have).text| <= nstates + Bytes(pats[..j])
      invariant GotoTable(TrieOf(have), next[..]) && AcceptsOwn(TrieOf(have), out[..], acc)
    {
      BytesSplit(pats, j);
      n := AddPattern(next, out, pats[j], n, have, acc);
      TakeOneMore(accepted, pats, j);
      TakeOneMore(all, pats, j);
      acc, have := acc + [pats[j]], have + [pats[j]];
    }
    assert pats[..|pats|] == pats;
  }

  lemma TakeOneMore(a: seq<Pattern>, pats: seq<Pattern>, j: nat)
    requires j < |pats|
    ensures a + pats[..j + 1] == a + pats[..j] + [pats[j]]
  {
  }

  lemma BytesSplit(pats: seq<Pattern>, j: nat)
    requires j < |pats|
    ensures Bytes(pats[..j + 1]) == Bytes(pats[..j]) + |pats[j].word| <= Bytes(pats)
  {
    assert pats[..j + 1][..j] == pats[..j];
    assert pats == pats[..j + 1] + pats[j + 1..];
    BytesAppend(pats[..j + 1], pats[j + 1..]);
  }

  lemma SigChunk(cats: seq<Category>, fl: Flavour, i: nat)
    requires i < |cats|
    ensures SigPatterns(cats[..i + 1], fl) ==
            SigPatterns(cats[..i], fl) + (if fl in cats[i].flavours then SigsOf(cats[i]) else [])
    ensures Bytes(SigPatterns(cats[..i + 1], fl)) ==
            Bytes(SigPatterns(cats[..i], fl)) + Bytes(if fl in cats[i].flavours then SigsOf(cats[i]) else [])
    ensures Bytes(SigPatterns(cats[..i + 1], fl)) <= Bytes(SigPatterns(cats, fl))
    decreases |cats| - i
  {
    assert cats[..i + 1][..i] == cats[..i];
    BytesAppend(SigPatterns(cats[..i], fl), if fl in cats[i].flavours then SigsOf(cats[i]) else []);
    if i + 1 == |cats| {
      assert cats[..i + 1] == cats;
    } else {
      SigChunk(cats, fl, i + 1);
    }
  }

  lemma TermChunk(rules: seq<Rule>, fl: Flavour, i: nat)
    requires i < |rules|
    ensures var chunk := if fl in rules[i].flavours then TermsOf(rules[i], TermCount(rules[..i])) else [];
            && TermPatterns(rules[..i + 1], fl) == TermPatterns(rules[..i], fl) + chunk
            && Bytes(TermPatterns(rules[..i + 1], fl)) == Bytes(TermPatterns(rules[..i], fl)) + Bytes(chunk)
            && Bytes(TermPatterns(rules[..i + 1], fl)) <= Bytes(TermPatterns(rules, fl))
            && TermCount(rules[..i + 1]) == TermCount(rules[..i]) + |rules[i].terms| <= TermCount(rules)
    decreases |rules| - i
  {
    assert rules[..i + 1][..i] == rules[..i];
    var chunk := if fl in rules[i].flavours then TermsOf(rules[i], TermCount(rules[..i])) else [];
    BytesAppend(TermPatterns(rules[..i], fl), chunk);
    if i + 1 == |rules| {
      assert rules[..i + 1] == rules;
    } else {
      TermChunk(rules, fl, i + 1);
    }
  }

  /** Pass 1: the signatures of every category of this flavour. */
  method AddSignatures(tbl: Table, fl: Flavour, next: array<nat>, out: array<Mask>) returns (n: nat)
    requires forall i :: 0 <= i < |tbl.cats| ==> tbl.cats[i].cat < 64
    requires (1 + Bytes(SigPatterns(tbl.cats, fl))) * 256 <= next.Length
    requires 1 + Bytes(SigPatterns(tbl.cats, fl)) <= out.Length
    requires GotoTable(TrieOf([]), next[..]) && AcceptsOwn(TrieOf([]), out[..], [])
    modifies next, out
    ensures var sigs := SigPatterns(tbl.cats, fl);
            && n == |TrieOf(sigs).text| <= 1 + Bytes(sigs)
            && GotoTable(TrieOf(sigs), next[..]) && AcceptsOwn(TrieOf(sigs), out[..], sigs)
  {
    n := 1;
    ghost var sigs := [];
    for i := 0 to |tbl.cats|
      invariant sigs == SigPatterns(tbl.cats[..i], fl)
      invariant n == |TrieOf(sigs).text| <= 1 + Bytes(sigs)
      invariant GotoTable(TrieOf(sigs), next[..]) && AcceptsOwn(TrieOf(sigs), out[..], sigs)
    {
      SigChunk(tbl.cats, fl, i);
      if fl in tbl.cats[i].flavours {
        n := AddPatterns(next, out, SigsOf(tbl.cats[i]), n, sigs, sigs);
        sigs := sigs + SigsOf(tbl.cats[i]);
      }
    }
    assert tbl.cats[..|tbl.cats|] == tbl.cats;
  }

  /** Pass 1b: the rule terms go into the same trie but only mark `rout`. */
  method AddTerms(tbl: Table, fl: Flavour, next: array<nat>, rout: array<Mask>, nstates: nat,
                  ghost sigs: seq<Pattern>)
    returns (n: nat)
    requires TermCount(tbl.rules) <= 64
    requires nstates == |TrieOf(sigs).text| && GotoTable(TrieOf(sigs), next[..])
    requires (nstates + Bytes(TermPatterns(tbl.rules, fl))) * 256 <= next.Length
    requires nstates + Bytes(TermPatterns(tbl.rules, fl)) <= rout.Length
    requires AcceptsOwn(TrieOf(sigs), rout[..], [])
    modifies next, rout
    ensures var all := sigs + TermPatterns(tbl.rules, fl);
            && n == |TrieOf(all).text| <= nstates + Bytes(TermPatterns(tbl.rules, fl))
            && GotoTable(TrieOf(all), next[..]) && AcceptsOwn(TrieOf(all), rout[..], TermPatterns(tbl.rules, fl))
  {
    n := nstates;
    ghost var terms, all := [], sigs;
    var term := 0;
    for i := 0 to |tbl.rules|
      invariant terms == TermPatterns(tbl.rules[..i], fl) && all == sigs + terms
      invariant term == TermCount(tbl.rules[..i])
      invariant n == |TrieOf(all).text| <= nstates + Bytes(terms)
      invariant GotoTable(TrieOf(all), next[..]) && AcceptsOwn(TrieOf(all), rout[..], terms)
    {
      TermChunk(tbl.rules, fl, i);
      if fl in tbl.rules[i].flavours {
        var chunk := TermsOf(tbl.rules[i], term);
        n := AddPatterns(next, rout, chunk, n, all, terms);
        Associate(sigs, terms, chunk);
        terms, all := terms + chunk, all + chunk;
      }
      term := term + |tbl.rules[i].terms|;
    }
    assert tbl.rules[..|tbl.rules|] == tbl.rules;
  }

  lemma Associate(a: seq<Pattern>, b: seq<Pattern>, c: seq<Pattern>)
    ensures a + b + c == a + (b + c)
  {
  }

  /** Before pass 2 the goto table and the own masks satisfy the walk's invariant at the root. */
  lemma WalkStart(t: Trie, next: seq<nat>)
    requires GotoTable(t, next)
    ensures WalkOk(t, next, Start)
  {
  }

  lemma MasksStart(t: Trie, sigs: seq<Pattern>, terms: seq<Pattern>, l: Links)
    requires AcceptsOwn(t, l.out, sigs) && AcceptsOwn(t, l.rout, terms) && Fits(t, sigs) && Fits(t, terms)
    requires |t.text| <= |l.fail| && forall i :: 0 <= i < |l.fail| ==> l.fail[i] == 0
    ensures MasksOk(t, sigs, terms, l, {})
  {
    RootStartAccept(t, l.out, sigs);
    RootStartAccept(t, l.rout, terms);
  }

  lemma RootStartAccept(t: Trie, out: seq<Mask>, pats: seq<Pattern>)
    requires AcceptsOwn(t, out, pats) && Fits(t, pats)
    ensures AcceptOk(t, out, pats, {})
  {
    EmptyEnding(t, pats);
    assert BitsAt(pats, []) == {};
  }

  ghost const Start: Walk := Walk([], {}, 0, {}, 0, 0)

  /** The drained queue lists every non-root state exactly once. */
  ghost predicate EachOnce(queue: seq<nat>, n: nat) {
    && (forall v: nat :: 0 < v < n <==> v in queue)
    && (forall i, j :: 0 <= i < j < |queue| ==> queue[i] != queue[j])
  }

  lemma QueueRoom(n: nat, k: Walk, v: nat)
    requires QueueOk(n, k) && 0 < v < n && v !in k.enq && k.b < 256
    ensures |k.queue| + 1 < n
  {
    EnqueueQueue(n, k, v);
    DistinctBelow(k.queue + [v], n);
  }

  /** Enqueue the children of the root. */
  method EnqueueRoots(next: array<nat>, queue: array<nat>, ghost t: Trie, ghost sigs: seq<Pattern>,
                      ghost terms: seq<Pattern>, ghost l: Links)
    returns (tail: nat, ghost k: Walk)
    requires next != queue && |t.text| <= queue.Length
    requires l.next == next[..] && WalkOk(t, next[..], Start) && MasksOk(t, sigs, terms, l, {})
    modifies queue
    ensures tail <= queue.Length && k.queue == queue[..tail] && k.head == 0 && k.b == 256
    ensures WalkOk(t, next[..], k) && MasksOk(t, sigs, terms, l, k.enq)
  {
    tail, k := 0, Start;
    for b := 0 to 256
      invariant tail <= queue.Length && k.queue == queue[..tail] && k.head == 0 && k.b == b
      invariant WalkOk(t, next[..], k) && MasksOk(t, sigs, terms, l, k.enq)
    {
      var v := next[b];
      assert v == Cell(next[..], k.cur, k.b);
      RootWalkStep(t, next[..], k, v);
      RootMasksStep(t, sigs, terms, l, k, v);
      if v != 0 {
        QueueRoom(|t.text|, k, v);
        queue[tail] := v;
        tail := tail + 1;
      }
      k := Next(k, v);
    }
  }

  /** The arrays of pass 2, which the build allocates separately. */
  ghost function Snapshot(next: array<nat>, fail: array<nat>, out: array<Mask>, rout: array<Mask>): Links
    reads next, fail, out, rout
  {
    Links(next[..], fail[..], out[..], rout[..])
  }

  /** The child's fail link, and the union of the masks along it. */
  method LinkChild(next: array<nat>, fail: array<nat>, out: array<Mask>, rout: array<Mask>, v: nat, f: nat)
    requires next != fail && out != rout
    requires v < fail.Length && v < out.Length && v < rout.Length && f < out.Length && f < rout.Length
    modifies fail, out, rout
    ensures Snapshot(next, fail, out, rout) == Inherit(old(Snapshot(next, fail, out, rout)), v, f)
  {
    fail[v] := f;
    out[v] := out[v] + out[f];
    rout[v] := rout[v] + rout[f];
  }

  /** Present edge out of the dequeued state: link the child and enqueue it. */
  method LinkByte(next: array<nat>, fail: array<nat>, out: array<Mask>, rout: array<Mask>, queue: array<nat>,
                  v: nat, f: nat, tail0: nat,
                  ghost t: Trie, ghost sigs: seq<Pattern>, ghost terms: seq<Pattern>, ghost k: Walk)
    returns (tail: nat)
    requires next != fail && next != queue && fail != queue && out != rout && |t.text| <= queue.Length
    requires Inv(t, sigs, terms, Snapshot(next, fail, out, rout), k)
    requires tail0 <= queue.Length && k.queue == queue[..tail0] && 0 < k.head && k.b < 256
    requires v == Cell(next[..], k.cur, k.b) != 0 && f == Node(t, (t.text[k.cur] + [k.b])[1..])
    modifies fail, out, rout, queue
    ensures Inv(t, sigs, terms, Snapshot(next, fail, out, rout), Next(k, v))
    ensures tail <= queue.Length && Next(k, v).queue == queue[..tail]
  {
    LinkStep(t, sigs, terms, Snapshot(next, fail, out, rout), k);
    QueueRoom(|t.text|, k, v);
    LinkChild(next, fail, out, rout, v, f);
    queue[tail0] := v;
    tail := tail0 + 1;
    assert queue[..tail] == k.queue + [v];
  }

  /** Byte `b` of the dequeued state: flatten an absent edge, or link and enqueue the child. */
  method ResolveByte(next: array<nat>, fail: array<nat>, out: array<Mask>, rout: array<Mask>, queue: array<nat>,
                     s: nat, b: Byte, tail0: nat,
                     ghost t: Trie, ghost sigs: seq<Pattern>, ghost terms: seq<Pattern>, ghost k: Walk)
    returns (tail: nat, ghost k': Walk)
    requires next != fail && next != queue && fail != queue && out != rout && |t.text| <= queue.Length
    requires Inv(t, sigs, terms, Snapshot(next, fail, out, rout), k)
    requires tail0 <= queue.Length && k.queue == queue[..tail0] && 0 < k.head && k.cur == s && k.b == b
    modifies next, fail, out, rout, queue
    ensures Inv(t, sigs, terms, Snapshot(next, fail, out, rout), k')
    ensures tail <= queue.Length && k'.queue == queue[..tail] && k'.head == k.head && k'.cur == s && k'.b == b + 1
  {
    ghost var l := Snapshot(next, fail, out, rout);
    FailReady(t, l, k);
    var v := next[s * 256 + b];
    assert v == Cell(l.next, s, b);
    var f := next[fail[s] * 256 + b];
    assert f == Cell(l.next, l.fail[s], b);
    k' := Next(k, v);
    if v == 0 {
      tail := tail0;
      FlattenStep(t, sigs, terms, l, k);
      next[s * 256 + b] := f;
      assert Snapshot(next, fail, out, rout) == l.(next := l.next[s * 256 + b := f]);
    } else {
      tail := LinkByte(next, fail, out, rout, queue, v, f, tail0, t, sigs, terms, k);
    }
  }

  /** Pass 2: drain the queue breadth first. */
  method ResolveLinks(next: array<nat>, fail: array<nat>, out: array<Mask>, rout: array<Mask>, queue: array<nat>,
                      ghost t: Trie, ghost sigs: seq<Pattern>, ghost terms: seq<Pattern>)
    returns (tail: nat, ghost k: Walk)
    requires next != fail && next != queue && fail != queue && out != rout && |t.text| <= queue.Length
    requires GotoTable(t, next[..]) && MasksOk(t, sigs, terms, Snapshot(next, fail, out, rout), {})
    modifies next, fail, out, rout, queue
    ensures tail <= queue.Length && k.queue == queue[..tail] && k.head == tail && k.b == 256
    ensures Inv(t, sigs, terms, Snapshot(next, fail, out, rout), k)
  {
    WalkStart(t, next[..]);
    tail, k := EnqueueRoots(next, queue, t, sigs, terms, Snapshot(next, fail, out, rout));
    var head := 0;
    while head < tail
      invariant head <= tail <= queue.Length && k.queue == queue[..tail] && k.head == head && k.b == 256
      invariant Inv(t, sigs, terms, Snapshot(next, fail, out, rout), k)
      decreases |t.text| - head
    {
      DequeueStep(t, sigs, terms, Snapshot(next, fail, out, rout), k);
      DistinctBelow(k.queue, |t.text|);
      var s := queue[head];
      head := head + 1;
      k := Dequeue(k);
      for b := 0 to 256
        invariant head <= tail <= queue.Length && k.queue == queue[..tail]
        invariant k.head == head && k.cur == s && k.b == b
        invariant Inv(t, sigs, terms, Snapshot(next, fail, out, rout), k)
      {
        tail, k := ResolveByte(next, fail, out, rout, queue, s, b, tail, t, sigs, terms, k);
      }
    }
  }

  ghost predicate SmallBits(tbl: Table) {
    forall i :: 0 <= i < |tbl.cats| ==> tbl.cats[i].cat < 64
  }

  lemma TableFits(tbl: Table, fl: Flavour)
    requires tbl.Valid()
    ensures Fits(TableTrie(tbl, fl), SigPatterns(tbl.cats, fl))
    ensures Fits(TableTrie(tbl, fl), TermPatterns(tbl.rules, fl))
  {
    forall p | p in SigPatterns(tbl.cats, fl) ensures p.word != [] && p.word in TableTrie(tbl, fl).id {
      SigPatternsMembers(tbl.cats, fl, p);
      assert p in AllPatterns(tbl, fl);
      WordsHaveStates(AllPatterns(tbl, fl), p);
    }
    forall p | p in TermPatterns(tbl.rules, fl) ensures p.word != [] && p.word in TableTrie(tbl, fl).id {
      TermPatternsMembers(tbl.rules, fl, p);
      assert p in AllPatterns(tbl, fl);
      WordsHaveStates(AllPatterns(tbl, fl), p);
    }
  }

  /** Pass 1 over the whole table: the trie and the own masks of both kinds of pattern. */
  method BuildTrie(tbl: Table, fl: Flavour, next: array<nat>, out: array<Mask>, rout: array<Mask>)
    returns (n: nat)
    requires SmallBits(tbl) && TermCount(tbl.rules) <= 64 && out != rout
    requires (1 + Bytes(AllPatterns(tbl, fl))) * 256 <= next.Length
    requires 1 + Bytes(AllPatterns(tbl, fl)) <= out.Length && 1 + Bytes(AllPatterns(tbl, fl)) <= rout.Length
    requires forall i :: 0 <= i < next.Length ==> next[i] == 0
    requires forall i :: 0 <= i < out.Length ==> out[i] == {}
    requires forall i :: 0 <= i < rout.Length ==> rout[i] == {}
    modifies next, out, rout
    ensures n == |TableTrie(tbl, fl).text| <= 1 + Bytes(AllPatterns(tbl, fl))
    ensures GotoTable(TableTrie(tbl, fl), next[..])
    ensures AcceptsOwn(TableTrie(tbl, fl), out[..], SigPatterns(tbl.cats, fl))
    ensures AcceptsOwn(TableTrie(tbl, fl), rout[..], TermPatterns(tbl.rules, fl))
  {
    ghost var sigs, terms := SigPatterns(tbl.cats, fl), TermPatterns(tbl.rules, fl);
    BytesAppend(sigs, terms);
    EmptyTrieOk(next[..], out[..]);
    n := AddSignatures(tbl, fl, next, out);
    NothingAccepted(TrieOf(sigs), rout[..]);
    n := AddTerms(tbl, fl, next, rout, n, sigs);
    GrowBy(sigs, terms, out[..]);
  }

  lemma NothingAccepted(t: Numbering, out: seq<Mask>)
    requires |t.text| <= |out| && forall i :: 0 <= i < |out| ==> out[i] == {}
    ensures AcceptsOwn(t, out, [])
  {
  }

  lemma EmptyTrieOk(next: seq<nat>, out: seq<Mask>)
    requires 256 <= |next| && 1 <= |out|
    requires forall i :: 0 <= i < |next| ==> next[i] == 0
    requires forall i :: 0 <= i < |out| ==> out[i] == {}
    ensures GotoTable(TrieOf([]), next) && AcceptsOwn(TrieOf([]), out, [])
  {
    forall s: nat, b: Byte | (s + 1) * 256 <= |next| ensures Cell(next, s, b) == 0 {}
    forall b: Byte ensures RootOnly.Edge(0, b) == 0 {
      assert |RootOnly.text[0] + [b]| == 1;
    }
  }

  lemma {:induction false} TrieOfAppend(all: seq<Pattern>, more: seq<Pattern>)
    ensures TrieOf(all).text <= TrieOf(all + more).text
    decreases |more|
  {
    if more == [] {
      assert all + more == all;
    } else {
      var n := |more| - 1;
      TakeOneMore(all, more, n);
      assert more[..n + 1] == more;
      TrieOfSnoc(all + more[..n], more[n]);
      TrieOfAppend(all, more[..n]);
    }
  }

  lemma GrowBy(all: seq<Pattern>, more: seq<Pattern>, out: seq<Mask>)
    requires AcceptsOwn(TrieOf(all), out, all) && |TrieOf(all + more).text| <= |out|
    ensures AcceptsOwn(TrieOf(all + more), out, all)
  {
    TrieOfAppend(all, more);
    TrieStates(all);
    TrieStates(all + more);
    forall q | q in all ensures q.word in TrieOf(all).id {
      WordsHaveStates(all, q);
    }
    GrowAccepts(TrieOf(all), TrieOf(all + more), out, all);
  }

  /** With the queue drained, the arrays are the automaton and every non-root state was enqueued once. */
  lemma Finished(t: Trie, sigs: seq<Pattern>, terms: seq<Pattern>, l: Links, k: Walk, m: Machine)
    requires Inv(t, sigs, terms, l, k) && k.head == |k.queue| && k.b == 256
    requires m.next == l.next && m.out == l.out && m.rout == l.rout && m.nstates == |t.text|
    ensures Recognises(m, t, sigs, terms)
    ensures EachOnce(k.queue, |t.text|)
  {
    forall u: nat | u < |t.text| ensures u == 0 || u in k.enq {
      DrainedReachesAll(t, k, u);
    }
    forall u: nat, c: Byte | u < |t.text| ensures Cell(l.next, u, c) == Delta(t, u, c) {
      DrainedReachesAll(t, k, u);
    }
    forall v: nat ensures v in k.queue <==> v in k.enq {}
  }

  /** Pass 1 result, as the invariant of pass 2. */
  lemma ReadyForLinks(tbl: Table, fl: Flavour, l: Links)
    requires tbl.Valid()
    requires AcceptsOwn(TableTrie(tbl, fl), l.out, SigPatterns(tbl.cats, fl))
    requires AcceptsOwn(TableTrie(tbl, fl), l.rout, TermPatterns(tbl.rules, fl))
    requires |TableTrie(tbl, fl).text| <= |l.fail| && forall i :: 0 <= i < |l.fail| ==> l.fail[i] == 0
    ensures MasksOk(TableTrie(tbl, fl), SigPatterns(tbl.cats, fl), TermPatterns(tbl.rules, fl), l, {})
  {
    TableFits(tbl, fl);
    MasksStart(TableTrie(tbl, fl), SigPatterns(tbl.cats, fl), TermPatterns(tbl.rules, fl), l);
  }

  /** Both passes on freshly zeroed arrays. */
  method BuildTables(tbl: Table, fl: Flavour, cap: nat)
    returns (m: Machine, queue: array<nat>, tail: nat)
    requires tbl.Valid() && TermCount(tbl.rules) <= 64 && cap == 1 + Bytes(AllPatterns(tbl, fl))
    ensures Recognises(m, TableTrie(tbl, fl), SigPatterns(tbl.cats, fl), TermPatterns(tbl.rules, fl))
    ensures m.nstates <= cap && m.row == [] && m.need == []
    ensures tail <= queue.Length && EachOnce(queue[..tail], m.nstates)
  {
    var next := new nat[cap * 256](_ => 0);
    var out := new Mask[cap](_ => {});
    var rout := new Mask[cap](_ => {});
    queue := new nat[cap](_ => 0);
    var fail := new nat[cap](_ => 0);
    var n := BuildTrie(tbl, fl, next, out, rout);
    ReadyForLinks(tbl, fl, Snapshot(next, fail, out, rout));
    ghost var k;
    tail, k := ResolveLinks(next, fail, out, rout, queue, TableTrie(tbl, fl), SigPatterns(tbl.cats, fl),
                            TermPatterns(tbl.rules, fl));
    m := Machine(next[..], out[..], rout[..], [], [], n);
    Finished(TableTrie(tbl, fl), SigPatterns(tbl.cats, fl), TermPatterns(tbl.rules, fl),
             Snapshot(next, fail, out, rout), k, m);
  }

  /**
   * Build the automaton of one flavour. It is refused when the rule set has more than 64 terms, when the
   * pattern bytes exceed the state type, or when memory runs out.
   */
  method Build(tbl: Table, fl: Flavour, memory: bool) returns (r: Built)
    requires tbl.Valid()
    ensures r.Ok? <==> TermCount(tbl.rules) <= 64 && 1 + Bytes(AllPatterns(tbl, fl)) <= MAX_STATES && memory
    ensures r.Ok? ==> Faithful(r.machine, tbl, fl)
  {
    var cap := CountStates(tbl, fl);
    var term := CountTerms(tbl);
    if term > 64 || cap > MAX_STATES || !memory {
      return Error;
    }
    var m, queue, tail := BuildTables(tbl, fl, cap);
    var row := BuildRows(tbl, fl);
    var need := BuildNeed(tbl, fl);
    r := Ok(m.(row := row, need := need));
  }
}
