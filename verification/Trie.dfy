/** The goto-trie of the automaton build: which word each state stands for, and pass 1. */
module Tries {
  import opened Words
  import opened Patterns

  /** States numbered in creation order: `text[s]` is the word of state s and `id` its inverse. */
  datatype Numbering = Numbering(text: seq<Word>, id: map<Word, nat>) {

    ghost predicate Valid() {
      && |text| > 0 && text[0] == []
      && (forall s :: 0 <= s < |text| ==> text[s] in id && id[text[s]] == s)
      && (forall w :: w in id ==> id[w] < |text| && text[id[w]] == w)
      && PrefixClosed(id.Keys)
    }

    /** The trie transition, 0 when absent: the root is never a target. */
    ghost function Edge(s: nat, b: Byte): nat
      requires s < |text|
    {
      if text[s] + [b] in id then id[text[s] + [b]] else 0
    }

    /** The state of a word; the root for a word without one. */
    ghost function State(w: Word): (s: nat)
      requires text != []
      ensures s < |text|
    {
      if w in id && id[w] < |text| then id[w] else 0
    }

    ghost function Extend(s: nat, b: Byte): Numbering
      requires s < |text|
    {
      Numbering(text + [text[s] + [b]], id[text[s] + [b] := |text|])
    }
  }

  ghost const RootOnly := Numbering([[]], map[[] := 0])

  /** A consistent numbering of a prefix-closed set of words. */
  type Trie = t: Numbering | t.Valid() ghost witness RootOnly

  /** Entry of the flattened transition table. */
  function Cell(next: seq<nat>, s: nat, b: Byte): nat
    requires (s + 1) * 256 <= |next|
  {
    next[s * 256 + b]
  }

  /** `next` holds exactly the trie edges, and zeros past the last state. */
  ghost predicate GotoTable(t: Numbering, next: seq<nat>) {
    && |t.text| * 256 <= |next|
    && forall s: nat, b: Byte {:trigger Cell(next, s, b)} :: (s + 1) * 256 <= |next| ==>
         Cell(next, s, b) == if s < |t.text| then t.Edge(s, b) else 0
  }

  /** Each state accepts exactly the patterns equal to its word. */
  ghost predicate AcceptsOwn(t: Numbering, out: seq<Mask>, pats: seq<Pattern>) {
    && |t.text| <= |out|
    && forall s :: 0 <= s < |out| ==> out[s] == if s < |t.text| then BitsAt(pats, t.text[s]) else {}
  }

  /** All prefixes of all patterns: the words that have a state. */
  ghost function Prefixes(pats: seq<Pattern>): set<Word> {
    {[]} + set p, k | p in pats && 0 <= k <= |p.word| :: p.word[..k]
  }

  lemma ExtendValid(t: Trie, s: nat, b: Byte)
    requires s < |t.text| && t.Edge(s, b) == 0
    ensures t.text[s] + [b] !in t.id
    ensures t.Extend(s, b).Valid()
    ensures t.Extend(s, b).id.Keys == t.id.Keys + {t.text[s] + [b]}
  {
    var w := t.text[s] + [b];
    assert w != [];
    assert w !in t.id by {
      assert t.text[0] == [];
    }
    forall x: Word, c: Byte | x + [c] in t.Extend(s, b).id
      ensures x in t.id
    {
      if x + [c] == w {
        assert x == (x + [c])[..|w| - 1] == w[..|w| - 1] == t.text[s];
      }
    }
  }

  lemma ExtendGoto(t: Trie, next: seq<nat>, s: nat, b: Byte)
    requires s < |t.text| && t.Edge(s, b) == 0
    requires GotoTable(t, next) && (|t.text| + 1) * 256 <= |next|
    ensures GotoTable(Follow(t, s, b), next[s * 256 + b := |t.text|])
  {
    ExtendValid(t, s, b);
    var t' := t.Extend(s, b);
    var next' := next[s * 256 + b := |t.text|];
    forall u: nat, c: Byte | (u + 1) * 256 <= |next|
      ensures Cell(next', u, c) == if u < |t'.text| then t'.Edge(u, c) else 0
    {
      assert (u, c) != (s, b) ==> Cell(next', u, c) == Cell(next, u, c);
      if u < |t'.text| {
        ExtendEdge(t, s, b, u, c);
      }
    }
  }

  /** Adding one edge changes no other transition, and the new state has none. */
  lemma ExtendEdge(t: Trie, s: nat, b: Byte, u: nat, c: Byte)
    requires s < |t.text| && t.Edge(s, b) == 0 && u <= |t.text|
    ensures t.Extend(s, b).Edge(u, c) ==
            if (u, c) == (s, b) then |t.text| else if u < |t.text| then t.Edge(u, c) else 0
  {
    ExtendValid(t, s, b);
    var w := t.Extend(s, b).text[u] + [c];
    assert w[..|w| - 1] == t.Extend(s, b).text[u];
    if u < |t.text| && w == t.text[s] + [b] {
      assert (t.text[s] + [b])[..|w| - 1] == t.text[s];
      assert t.text[u] == t.text[s] && u == s && c == b;
    }
  }

  ghost function PrefixesUpTo(w: Word, k: nat): set<Word>
    requires k <= |w|
  {
    set i | 0 <= i <= k :: w[..i]
  }

  ghost function Follow(t: Numbering, s: nat, b: Byte): (r: Numbering)
    requires s < |t.text|
    ensures r.text != []
  {
    if t.Edge(s, b) != 0 then t else t.Extend(s, b)
  }

  /** The trie after walking the first `k` bytes of `w` from the root, creating what is missing. */
  ghost function Insert(t: Numbering, w: Word, k: nat): (r: Numbering)
    requires k <= |w| && t.text != []
    ensures r.text != []
  {
    if k == 0 then t else
      var u := Insert(t, w, k - 1);
      Follow(u, u.State(w[..k - 1]), w[k - 1])
  }

  /** The trie of a list of patterns, inserted in order. */
  ghost function TrieOf(pats: seq<Pattern>): (t: Numbering)
    ensures t.text != []
  {
    if pats == [] then RootOnly else
      var p := pats[|pats| - 1];
      Insert(TrieOf(pats[..|pats| - 1]), p.word, |p.word|)
  }

  lemma FollowGrows(t: Trie, s: nat, b: Byte)
    requires s < |t.text|
    ensures var r := Follow(t, s, b);
            r.Valid() && t.text <= r.text && |r.text| <= |t.text| + 1 && r.id.Keys == t.id.Keys + {t.text[s] + [b]}
  {
    if t.Edge(s, b) == 0 {
      ExtendValid(t, s, b);
    }
  }

  lemma PrefixesStep(w: Word, k: nat)
    requires k < |w|
    ensures w[..k + 1] == w[..k] + [w[k]]
    ensures PrefixesUpTo(w, k + 1) == PrefixesUpTo(w, k) + {w[..k + 1]}
  {
  }

  /** `r` is `t` plus the first `k` prefixes of `w`. */
  ghost predicate Grown(t: Trie, w: Word, k: nat, r: Numbering)
    requires k <= |w|
  {
    && r.Valid() && t.text <= r.text && |r.text| <= |t.text| + k
    && r.id.Keys == t.id.Keys + PrefixesUpTo(w, k) && w[..k] in r.id
  }

  lemma {:induction false} InsertGrows(t: Trie, w: Word, k: nat)
    requires k <= |w|
    ensures Grown(t, w, k, Insert(t, w, k))
  {
    if k == 0 {
      InsertNothing(t, w);
    } else {
      InsertGrows(t, w, k - 1);
      GrowOne(t, w, k - 1, Insert(t, w, k - 1));
    }
  }

  lemma GrowOne(t: Trie, w: Word, k: nat, u: Trie)
    requires k < |w| && Grown(t, w, k, u)
    ensures Grown(t, w, k + 1, Follow(u, u.State(w[..k]), w[k]))
  {
    var s := u.State(w[..k]);
    PrefixesStep(w, k);
    assert u.text[s] + [w[k]] == w[..k + 1];
    FollowGrows(u, s, w[k]);
  }

  lemma InsertNothing(t: Trie, w: Word)
    ensures Grown(t, w, 0, t)
  {
    assert w[..0] == [] && PrefixesUpTo(w, 0) == {w[..0]};
    assert t.text[0] == [];
  }

  /** Its states are exactly the prefixes of the patterns: at most one per byte, plus the root. */
  lemma {:induction false} TrieStates(pats: seq<Pattern>)
    ensures TrieOf(pats).Valid()
    ensures TrieOf(pats).id.Keys == Prefixes(pats)
    ensures 1 <= |TrieOf(pats).text| <= 1 + Bytes(pats)
  {
    if pats == [] {
      NoPatterns();
    } else {
      var q, p := pats[..|pats| - 1], pats[|pats| - 1];
      assert q + [p] == pats;
      TrieStates(q);
      TrieStatesStep(q, p);
    }
  }

  lemma NoPatterns()
    ensures RootOnly.Valid() && RootOnly.id.Keys == Prefixes([])
  {
    assert forall w: Word, b: Byte :: |w + [b]| > 0;
  }

  lemma TrieStatesStep(pats: seq<Pattern>, p: Pattern)
    requires TrieOf(pats).Valid() && TrieOf(pats).id.Keys == Prefixes(pats) && |TrieOf(pats).text| <= 1 + Bytes(pats)
    ensures var r := TrieOf(pats + [p]);
            r.Valid() && r.id.Keys == Prefixes(pats + [p]) && |r.text| <= 1 + Bytes(pats + [p])
  {
    InsertGrows(TrieOf(pats), p.word, |p.word|);
    PrefixesAppend(pats, p);
    assert (pats + [p])[..|pats|] == pats;
  }

  lemma TrieOfSnoc(pats: seq<Pattern>, p: Pattern)
    ensures TrieOf(pats + [p]) == Insert(TrieOf(pats), p.word, |p.word|)
    ensures TrieOf(pats).text <= TrieOf(pats + [p]).text
    ensures |TrieOf(pats + [p]).text| <= |TrieOf(pats).text| + |p.word|
    ensures p.word in TrieOf(pats + [p]).id
  {
    assert (pats + [p])[..|pats|] == pats;
    TrieStates(pats);
    InsertGrows(TrieOf(pats), p.word, |p.word|);
    assert p.word[..|p.word|] == p.word;
  }

  lemma PrefixesAppend(pats: seq<Pattern>, p: Pattern)
    ensures Prefixes(pats + [p]) == Prefixes(pats) + PrefixesUpTo(p.word, |p.word|)
  {
    forall w
      ensures w in Prefixes(pats + [p]) <==> w in Prefixes(pats) || w in PrefixesUpTo(p.word, |p.word|)
    {
      if w in Prefixes(pats + [p]) && w != [] {
        var q, k :| q in pats + [p] && 0 <= k <= |q.word| && w == q.word[..k];
        assert q in pats || q == p;
      }
      if w in Prefixes(pats) && w != [] {
        var q, k :| q in pats && 0 <= k <= |q.word| && w == q.word[..k];
        assert q in pats + [p];
      }
      if w in PrefixesUpTo(p.word, |p.word|) {
        assert p in pats + [p];
      }
    }
  }

  lemma WordsHaveStates(pats: seq<Pattern>, p: Pattern)
    requires p in pats
    ensures p.word in TrieOf(pats).id
  {
    TrieStates(pats);
    assert p.word[..|p.word|] == p.word;
  }

  /** A state created later is no word of the earlier patterns, so its mask starts empty. */
  lemma GrowAccepts(t: Trie, t': Trie, out: seq<Mask>, accepted: seq<Pattern>)
    requires t.text <= t'.text && |t'.text| <= |out|
    requires AcceptsOwn(t, out, accepted) && forall q :: q in accepted ==> q.word in t.id
    ensures AcceptsOwn(t', out, accepted)
  {
    forall s | |t.text| <= s < |t'.text|
      ensures BitsAt(accepted, t'.text[s]) == {}
    {
      LaterWordsAreNew(t, t', s);
    }
  }

  lemma LaterWordsAreNew(t: Trie, t': Trie, s: nat)
    requires t.text <= t'.text && |t.text| <= s < |t'.text|
    ensures t'.text[s] !in t.id
  {
    assert forall u :: 0 <= u < |t.text| ==> t'.id[t.text[u]] == u by {
      assert forall u :: 0 <= u < |t.text| ==> t.text[u] == t'.text[u];
    }
  }

  lemma MarkAccepts(t: Trie, out: seq<Mask>, accepted: seq<Pattern>, p: Pattern)
    requires AcceptsOwn(t, out, accepted) && p.word in t.id && p.bit < 64
    ensures AcceptsOwn(t, out[t.id[p.word] := WithBit(out[t.id[p.word]], p.bit)], accepted + [p])
  {
    forall w
      ensures BitsAt(accepted + [p], w) ==
              if w == p.word then BitsAt(accepted, w) + {p.bit} else BitsAt(accepted, w)
    {
      BitsAtAppend(accepted, p, w);
    }
  }

  lemma BitsAtAppend(pats: seq<Pattern>, p: Pattern, w: Word)
    ensures BitsAt(pats + [p], w) == if w == p.word then BitsAt(pats, w) + {p.bit} else BitsAt(pats, w)
  {
    assert forall q :: q in pats + [p] <==> q in pats || q == p;
  }

  /** Follow the edge for `b` out of state s, creating the target state when it is missing. */
  method FollowOrCreate(next: array<nat>, s: nat, b: Byte, nstates: nat, ghost t: Trie)
    returns (v: nat, n: nat)
    requires nstates == |t.text| && GotoTable(t, next[..]) && s < nstates
    requires (nstates + 1) * 256 <= next.Length
    modifies next
    ensures GotoTable(Follow(t, s, b), next[..])
    ensures n == |Follow(t, s, b).text| && v == Follow(t, s, b).State(t.text[s] + [b])
  {
    n := nstates;
    assert Cell(next[..], s, b) == t.Edge(s, b);
    if next[s * 256 + b] == 0 {
      ExtendGoto(t, next[..], s, b);
      ghost var before: seq<nat> := next[..];
      next[s * 256 + b] := n;
      assert next[..] == before[s * 256 + b := |t.text|];
      n := n + 1;
    }
    assert Cell(next[..], s, b) == Follow(t, s, b).Edge(s, b);
    v := next[s * 256 + b];
  }

  /** One byte of the walk. */
  method Step(next: array<nat>, w: Word, k: nat, s0: nat, nstates: nat, ghost t: Trie)
    returns (s: nat, n: nat)
    requires k < |w| && nstates == |Insert(t, w, k).text|
    requires s0 == Insert(t, w, k).State(w[..k]) && GotoTable(Insert(t, w, k), next[..])
    requires (|t.text| + |w|) * 256 <= next.Length
    modifies next
    ensures n == |Insert(t, w, k + 1).text| && s == Insert(t, w, k + 1).State(w[..k + 1])
    ensures GotoTable(Insert(t, w, k + 1), next[..])
  {
    InsertGrows(t, w, k);
    PrefixesStep(w, k);
    s, n := FollowOrCreate(next, s0, w[k], nstates, Insert(t, w, k));
  }

  /** Walk one pattern down the trie from the root. */
  method InsertWord(next: array<nat>, w: Word, nstates: nat, ghost t: Trie)
    returns (s: nat, n: nat)
    requires nstates == |t.text| && GotoTable(t, next[..])
    requires (nstates + |w|) * 256 <= next.Length
    modifies next
    ensures GotoTable(Insert(t, w, |w|), next[..])
    ensures n == |Insert(t, w, |w|).text| && s == Insert(t, w, |w|).State(w)
  {
    s, n := 0, nstates;
    ghost var r: Numbering := t;
    assert w[..0] == [] && t.text[0] == [];
    for k := 0 to |w|
      invariant r == Insert(t, w, k) && n == |r.text| && s == r.State(w[..k])
      invariant GotoTable(r, next[..])
    {
      s, n := Step(next, w, k, s, n, t);
      r := Insert(t, w, k + 1);
    }
    assert w[..|w|] == w;
  }

  /** Set the pattern's bit in its state. */
  method Mark(out: array<Mask>, s: nat, p: Pattern, ghost t: Trie, ghost accepted: seq<Pattern>)
    requires p.bit < 64 && p.word in t.id && s == t.State(p.word) && AcceptsOwn(t, out[..], accepted)
    modifies out
    ensures AcceptsOwn(t, out[..], accepted + [p])
  {
    MarkAccepts(t, out[..], accepted, p);
    ghost var before: seq<Mask> := out[..];
    out[s] := WithBit(out[s], p.bit);
    assert out[..] == before[s := WithBit(before[s], p.bit)];
  }

  /** Insert a pattern and set its bit in the state it ends in. */
  method AddPattern(next: array<nat>, out: array<Mask>, p: Pattern, nstates: nat,
                    ghost all: seq<Pattern>, ghost accepted: seq<Pattern>)
    returns (n: nat)
    requires p.bit < 64 && nstates == |TrieOf(all).text| && GotoTable(TrieOf(all), next[..])
    requires (nstates + |p.word|) * 256 <= next.Length && nstates + |p.word| <= out.Length
    requires AcceptsOwn(TrieOf(all), out[..], accepted)
    requires forall q :: q in accepted ==> q in all
    modifies next, out
    ensures n == |TrieOf(all + [p]).text| <= nstates + |p.word|
    ensures GotoTable(TrieOf(all + [p]), next[..]) && AcceptsOwn(TrieOf(all + [p]), out[..], accepted + [p])
  {
    PatternGrows(all, p, out[..], accepted);
    var s;
    s, n := InsertWord(next, p.word, nstates, TrieOf(all));
    Mark(out, s, p, TrieOf(all + [p]), accepted);
  }

  lemma PatternGrows(all: seq<Pattern>, p: Pattern, out: seq<Mask>, accepted: seq<Pattern>)
    requires AcceptsOwn(TrieOf(all), out, accepted) && (forall q :: q in accepted ==> q in all)
    requires |TrieOf(all).text| + |p.word| <= |out|
    ensures TrieOf(all).Valid() && TrieOf(all + [p]).Valid()
    ensures TrieOf(all + [p]) == Insert(TrieOf(all), p.word, |p.word|) && p.word in TrieOf(all + [p]).id
    ensures |TrieOf(all + [p]).text| <= |TrieOf(all).text| + |p.word|
    ensures AcceptsOwn(TrieOf(all + [p]), out, accepted)
  {
    TrieStates(all);
    TrieStates(all + [p]);
    TrieOfSnoc(all, p);
    forall q | q in accepted ensures q.word in TrieOf(all).id {
      WordsHaveStates(all, q);
    }
    GrowAccepts(TrieOf(all), TrieOf(all + [p]), out, accepted);
  }
}
