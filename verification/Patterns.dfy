/** Shape of the signature tables: categories, AND-rules and the 64-bit masks over category ids. */
module Patterns {
  import opened Words

  /** A 64-bit mask, as the set of its one-bits. A shift by 64 or more is not representable. */
  type Mask = m: set<nat> | forall b :: b in m ==> b < 64

  /** `m | (1 << b)` */
  function WithBit(m: Mask, b: nat): Mask
    requires b < 64
  {
    m + {b}
  }

  datatype Flavour = Decoded | Raw

  /** One row of the category table; `flavours` holds the buffer flavours the row is scanned on. */
  datatype Category = Category(cat: nat, sigs: seq<Word>, flavours: set<Flavour>, noQuery: bool)

  /** An AND-rule: it reports `cat` once every term occurred in one buffer. */
  datatype Rule = Rule(cat: nat, terms: seq<Word>, flavours: set<Flavour>)

  datatype Table = Table(cats: seq<Category>, rules: seq<Rule>) {

    /** What the static tables guarantee: non-empty texts and distinct category ids below 64. */
    ghost predicate Valid() {
      && (forall i :: 0 <= i < |cats| ==> cats[i].cat < 64)
      && (forall i, j :: 0 <= i < j < |cats| ==> cats[i].cat != cats[j].cat)
      && (forall i, j :: 0 <= i < |cats| && 0 <= j < |cats[i].sigs| ==> cats[i].sigs[j] != [])
      && (forall i :: 0 <= i < |rules| ==> rules[i].cat < 64)
      && (forall i, j :: 0 <= i < |rules| && 0 <= j < |rules[i].terms| ==> rules[i].terms[j] != [])
    }
  }

  /** A text entered in the trie, with the bit it sets in the accepting state. */
  datatype Pattern = Pattern(word: Word, bit: nat)

  function SigsOf(c: Category): (r: seq<Pattern>)
    ensures |r| == |c.sigs|
  {
    seq(|c.sigs|, j requires 0 <= j < |c.sigs| => Pattern(c.sigs[j], c.cat))
  }

  /** Every signature of every category of this flavour, in table order. */
  function SigPatterns(cats: seq<Category>, fl: Flavour): seq<Pattern> {
    if cats == [] then [] else
      var c := cats[|cats| - 1];
      SigPatterns(cats[..|cats| - 1], fl) + (if fl in c.flavours then SigsOf(c) else [])
  }

  /** Term ids run over all rules in declaration order, whatever their flavour. */
  function TermCount(rules: seq<Rule>): nat {
    if rules == [] then 0 else TermCount(rules[..|rules| - 1]) + |rules[|rules| - 1].terms|
  }

  function TermsOf(r: Rule, base: nat): (p: seq<Pattern>)
    ensures |p| == |r.terms|
  {
    seq(|r.terms|, j requires 0 <= j < |r.terms| => Pattern(r.terms[j], base + j))
  }

  function TermPatterns(rules: seq<Rule>, fl: Flavour): seq<Pattern> {
    if rules == [] then [] else
      var n := |rules| - 1;
      TermPatterns(rules[..n], fl) + (if fl in rules[n].flavours then TermsOf(rules[n], TermCount(rules[..n])) else [])
  }

  /** Total number of pattern bytes: an upper bound on the number of non-root states. */
  function Bytes(pats: seq<Pattern>): nat {
    if pats == [] then 0 else Bytes(pats[..|pats| - 1]) + |pats[|pats| - 1].word|
  }

  lemma {:induction false} BytesAppend(a: seq<Pattern>, b: seq<Pattern>)
    ensures Bytes(a + b) == Bytes(a) + Bytes(b)
    decreases |b|
  {
    if b == [] {
      assert a + b == a;
    } else {
      assert (a + b)[..|a + b| - 1] == a + b[..|b| - 1];
      BytesAppend(a, b[..|b| - 1]);
    }
  }

  /** The bits of the patterns equal to `w`. */
  ghost function BitsAt(pats: seq<Pattern>, w: Word): set<nat> {
    set p | p in pats && p.word == w :: p.bit
  }

  /** The bits of the patterns that end `w`. */
  ghost function BitsEnding(pats: seq<Pattern>, w: Word): set<nat> {
    set p | p in pats && IsSuffix(p.word, w) :: p.bit
  }

  lemma {:induction false} SigPatternsMembers(cats: seq<Category>, fl: Flavour, p: Pattern)
    ensures p in SigPatterns(cats, fl) <==>
            exists i :: 0 <= i < |cats| && fl in cats[i].flavours && p.bit == cats[i].cat && p.word in cats[i].sigs
  {
    if cats != [] {
      var n := |cats| - 1;
      var c := cats[n];
      SigPatternsMembers(cats[..n], fl, p);
      if p in SigsOf(c) {
        var j :| 0 <= j < |c.sigs| && SigsOf(c)[j] == p;
        assert c.sigs[j] == p.word;
      }
      if p.word in c.sigs && p.bit == c.cat {
        var j :| 0 <= j < |c.sigs| && c.sigs[j] == p.word;
        assert SigsOf(c)[j] == p;
      }
      forall i | 0 <= i < n ensures cats[..n][i] == cats[i] {}
    }
  }

  /** `p` is the term of rule `i` that carries bit `p.bit`, and the rule is of this flavour. */
  ghost predicate IsTerm(rules: seq<Rule>, fl: Flavour, i: nat, p: Pattern)
    requires i < |rules|
  {
    var base := TermCount(rules[..i]);
    && fl in rules[i].flavours
    && base <= p.bit < base + |rules[i].terms|
    && p.word == rules[i].terms[p.bit - base]
  }

  lemma {:induction false} TermPatternsMembers(rules: seq<Rule>, fl: Flavour, p: Pattern)
    ensures p in TermPatterns(rules, fl) <==> exists i: nat :: i < |rules| && IsTerm(rules, fl, i, p)
  {
    if rules != [] {
      var n := |rules| - 1;
      var base := TermCount(rules[..n]);
      TermPatternsMembers(rules[..n], fl, p);
      forall i: nat | i < n
        ensures IsTerm(rules[..n], fl, i, p) <==> IsTerm(rules, fl, i, p)
      {
        assert rules[..n][..i] == rules[..i];
      }
      LastRuleTerms(rules[n], base, p);
      assert IsTerm(rules, fl, n, p) <==> fl in rules[n].flavours && p in TermsOf(rules[n], base);
    }
  }

  lemma LastRuleTerms(r: Rule, base: nat, p: Pattern)
    ensures p in TermsOf(r, base) <==>
            base <= p.bit < base + |r.terms| && p.word == r.terms[p.bit - base]
  {
    if base <= p.bit < base + |r.terms| && p.word == r.terms[p.bit - base] {
      assert TermsOf(r, base)[p.bit - base] == p;
    }
  }

  /** Term ids of different rules do not overlap, and none reaches the total. */
  lemma {:induction false} TermCountMonotone(rules: seq<Rule>, i: nat, k: nat)
    requires i < k <= |rules|
    ensures TermCount(rules[..i]) + |rules[i].terms| <= TermCount(rules[..k])
    decreases k
  {
    assert rules[..k][..k - 1] == rules[..k - 1];
    if i < k - 1 {
      TermCountMonotone(rules, i, k - 1);
    }
  }
}
