/** Byte strings, suffixes, and the longest suffix that lies in a prefix-closed set. */
module Words {

  type Byte = b: int | 0 <= b < 256
  type Word = seq<Byte>

  predicate IsSuffix(x: Word, w: Word) {
    |x| <= |w| && w[|w| - |x|..] == x
  }

  /** `x` occurs in `w` when some prefix of `w` ends with it. */
  ghost predicate Occurs(x: Word, w: Word) {
    exists k :: 0 <= k <= |w| && IsSuffix(x, w[..k])
  }

  ghost predicate PrefixClosed(dict: set<Word>) {
    [] in dict && forall w: Word, b: Byte {:trigger w + [b]} :: w + [b] in dict ==> w in dict
  }

  /** The longest suffix of `w` that belongs to `dict`. */
  ghost function Longest(dict: set<Word>, w: Word): (r: Word)
    requires [] in dict
    ensures r in dict && |r| <= |w|
    decreases |w|
  {
    if w in dict then w else Longest(dict, w[1..])
  }

  lemma {:induction false} LongestIsSuffix(dict: set<Word>, w: Word)
    requires [] in dict
    ensures IsSuffix(Longest(dict, w), w)
    decreases |w|
  {
    if w !in dict {
      LongestIsSuffix(dict, w[1..]);
      SuffixSplit(Longest(dict, w), w);
    }
  }

  /** No member of `dict` that is a suffix of `w` is longer than `Longest`. */
  lemma {:induction false} LongestIsMaximal(dict: set<Word>, x: Word, w: Word)
    requires [] in dict && x in dict && IsSuffix(x, w)
    ensures |x| <= |Longest(dict, w)|
    ensures IsSuffix(x, Longest(dict, w))
    decreases |w|
  {
    if w !in dict {
      assert IsSuffix(x, w[1..]);
      LongestIsMaximal(dict, x, w[1..]);
    }
  }

  /** Reading one more byte only needs the longest suffix, not the whole text. */
  lemma {:induction false} LongestStep(dict: set<Word>, w: Word, b: Byte)
    requires PrefixClosed(dict)
    ensures Longest(dict, w + [b]) == Longest(dict, Longest(dict, w) + [b])
    decreases |w|
  {
    if w !in dict {
      assert w + [b] !in dict;
      assert (w + [b])[1..] == w[1..] + [b];
      LongestStep(dict, w[1..], b);
    }
  }

  /** A word of `dict` occurs in a text exactly when it is a suffix of the longest suffix. */
  lemma SuffixOfLongest(dict: set<Word>, x: Word, w: Word)
    requires [] in dict && x in dict
    ensures IsSuffix(x, w) <==> IsSuffix(x, Longest(dict, w))
  {
    if IsSuffix(x, w) {
      LongestIsMaximal(dict, x, w);
    }
    if IsSuffix(x, Longest(dict, w)) {
      LongestIsSuffix(dict, w);
      SuffixTransitive(x, Longest(dict, w), w);
    }
  }

  lemma SuffixTransitive(x: Word, y: Word, w: Word)
    requires IsSuffix(x, y) && IsSuffix(y, w)
    ensures IsSuffix(x, w)
  {
    assert w[|w| - |x|..] == y[|y| - |x|..];
  }

  /** A non-empty word is a suffix of `w` when it is `w` itself or a suffix of `w` less its first byte. */
  lemma SuffixSplit(x: Word, w: Word)
    requires w != []
    ensures IsSuffix(x, w) <==> x == w || IsSuffix(x, w[1..])
  {
    if |x| < |w| {
      assert w[|w| - |x|..] == w[1..][|w| - 1 - |x|..];
    }
  }
}
