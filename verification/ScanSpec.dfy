/**
 * What a scan must answer, by plain substring search: no automaton appears here.
 * Answers are rows of the category table.
 */
module ScanSpec {
  import opened Options
  import opened Words
  import opened Patterns

  /** Some signature of the category ends the text. */
  ghost predicate EndsIn(c: Category, w: Word) {
    exists j :: 0 <= j < |c.sigs| && IsSuffix(c.sigs[j], w)
  }

  /** Row `i` is of this flavour, not skipped, and one of its signatures ends `w`. */
  ghost predicate Fires(tbl: Table, fl: Flavour, skip: set<nat>, w: Word, i: nat)
    requires i < |tbl.cats|
  {
    fl in tbl.cats[i].flavours && tbl.cats[i].cat !in skip && EndsIn(tbl.cats[i], w)
  }

  /** Rule `i` is of this flavour and has terms, it is not skipped, and every term occurs in the text. */
  ghost predicate RuleFires(tbl: Table, fl: Flavour, skip: set<nat>, data: Word, i: nat)
    requires i < |tbl.rules|
  {
    var r := tbl.rules[i];
    fl in r.flavours && r.terms != [] && r.cat !in skip && forall t :: t in r.terms ==> Occurs(t, data)
  }

  /** Row `i` is the lowest one that fires at the end of `w`. */
  ghost predicate LowestRow(tbl: Table, fl: Flavour, skip: set<nat>, w: Word, i: nat) {
    && i < |tbl.cats| && Fires(tbl, fl, skip, w, i)
    && forall h: nat :: h < i ==> !Fires(tbl, fl, skip, w, h)
  }

  ghost predicate Quiet(tbl: Table, fl: Flavour, skip: set<nat>, w: Word) {
    forall i: nat :: i < |tbl.cats| ==> !Fires(tbl, fl, skip, w, i)
  }

  /** Nothing fires at any position up to `k`. */
  ghost predicate QuietUpTo(tbl: Table, fl: Flavour, skip: set<nat>, data: Word, k: nat) {
    forall h :: 0 < h <= k && h <= |data| ==> Quiet(tbl, fl, skip, data[..h])
  }

  /** Row `row` carries the category the rule reports. */
  ghost predicate Reports(tbl: Table, i: nat, row: nat)
    requires i < |tbl.rules|
  {
    row < |tbl.cats| && tbl.cats[row].cat == tbl.rules[i].cat
  }

  /** Rule `i` fires and its category has a table row to report. */
  ghost predicate RuleDecides(tbl: Table, fl: Flavour, skip: set<nat>, data: Word, i: nat)
    requires i < |tbl.rules|
  {
    RuleFires(tbl, fl, skip, data, i) && exists row :: Reports(tbl, i, row)
  }

  /** The answer comes from a standalone signature: lowest row at the earliest ending position. */
  ghost predicate SignatureHit(tbl: Table, fl: Flavour, skip: set<nat>, data: Word, row: nat) {
    exists k :: 0 < k <= |data| && QuietUpTo(tbl, fl, skip, data, k - 1) && LowestRow(tbl, fl, skip, data[..k], row)
  }

  /** The answer comes from the first AND-rule that decides. */
  ghost predicate RuleHit(tbl: Table, fl: Flavour, skip: set<nat>, data: Word, row: nat) {
    exists i: nat :: i < |tbl.rules| && RuleDecides(tbl, fl, skip, data, i) && Reports(tbl, i, row)
                     && forall h: nat :: h < i ==> !RuleDecides(tbl, fl, skip, data, h)
  }

  ghost predicate NoRule(tbl: Table, fl: Flavour, skip: set<nat>, data: Word) {
    forall i: nat :: i < |tbl.rules| ==> !RuleDecides(tbl, fl, skip, data, i)
  }

  /** The complete answer of one scan. */
  ghost predicate Answer(tbl: Table, fl: Flavour, skip: set<nat>, data: Word, r: Option<nat>) {
    if QuietUpTo(tbl, fl, skip, data, |data|) then
      match r
      case None => NoRule(tbl, fl, skip, data)
      case Some(row) => RuleHit(tbl, fl, skip, data, row)
    else
      r.Some? && SignatureHit(tbl, fl, skip, data, r.value)
  }

  /** Some unskipped category or rule matches the text. */
  ghost predicate Matches(tbl: Table, fl: Flavour, skip: set<nat>, data: Word) {
    || (exists i: nat, k :: i < |tbl.cats| && 0 < k <= |data| && Fires(tbl, fl, skip, data[..k], i))
    || (exists i: nat :: i < |tbl.rules| && RuleDecides(tbl, fl, skip, data, i))
  }

  lemma AnswerIffMatches(tbl: Table, fl: Flavour, skip: set<nat>, data: Word, r: Option<nat>)
    requires Answer(tbl, fl, skip, data, r)
    ensures r.Some? <==> Matches(tbl, fl, skip, data)
  {
    if QuietUpTo(tbl, fl, skip, data, |data|) {
      forall i: nat, k | i < |tbl.cats| && 0 < k <= |data| ensures !Fires(tbl, fl, skip, data[..k], i) {
        assert Quiet(tbl, fl, skip, data[..k]);
      }
    }
  }

  /** Where nothing matches, "nothing" is the answer. */
  lemma NoMatchNoAnswer(tbl: Table, fl: Flavour, skip: set<nat>, data: Word)
    requires !Matches(tbl, fl, skip, data)
    ensures Answer(tbl, fl, skip, data, None)
  {
    forall h | 0 < h <= |data| ensures Quiet(tbl, fl, skip, data[..h]) {
    }
  }

  /** The specification leaves no choice: with distinct category ids the answer is unique. */
  lemma AnswerUnique(tbl: Table, fl: Flavour, skip: set<nat>, data: Word, r: Option<nat>, s: Option<nat>)
    requires tbl.Valid() && Answer(tbl, fl, skip, data, r) && Answer(tbl, fl, skip, data, s)
    ensures r == s
  {
    if QuietUpTo(tbl, fl, skip, data, |data|) {
      if r.Some? && s.Some? {
        var i: nat :| i < |tbl.rules| && RuleDecides(tbl, fl, skip, data, i) && Reports(tbl, i, r.value)
                      && forall h: nat :: h < i ==> !RuleDecides(tbl, fl, skip, data, h);
        var j: nat :| j < |tbl.rules| && RuleDecides(tbl, fl, skip, data, j) && Reports(tbl, j, s.value)
                      && forall h: nat :: h < j ==> !RuleDecides(tbl, fl, skip, data, h);
        assert i == j;
      }
    } else {
      SignatureUnique(tbl, fl, skip, data, r.value, s.value);
    }
  }

  lemma SignatureUnique(tbl: Table, fl: Flavour, skip: set<nat>, data: Word, a: nat, b: nat)
    requires SignatureHit(tbl, fl, skip, data, a) && SignatureHit(tbl, fl, skip, data, b)
    ensures a == b
  {
    var k :| 0 < k <= |data| && QuietUpTo(tbl, fl, skip, data, k - 1) && LowestRow(tbl, fl, skip, data[..k], a);
    var h :| 0 < h <= |data| && QuietUpTo(tbl, fl, skip, data, h - 1) && LowestRow(tbl, fl, skip, data[..h], b);
    FiresNoEarlier(tbl, fl, skip, data, k, h, b);
    FiresNoEarlier(tbl, fl, skip, data, h, k, a);
  }

  lemma FiresNoEarlier(tbl: Table, fl: Flavour, skip: set<nat>, data: Word, k: nat, h: nat, i: nat)
    requires 0 < k && 0 < h <= |data| && i < |tbl.cats|
    requires QuietUpTo(tbl, fl, skip, data, k - 1) && Fires(tbl, fl, skip, data[..h], i)
    ensures k <= h
  {
  }

  /** A larger skip mask never creates a hit. */
  lemma SkipMonotone(tbl: Table, fl: Flavour, skip: set<nat>, more: set<nat>, data: Word)
    requires skip <= more && Matches(tbl, fl, more, data)
    ensures Matches(tbl, fl, skip, data)
  {
    if i: nat, k :| i < |tbl.cats| && 0 < k <= |data| && Fires(tbl, fl, more, data[..k], i) {
      assert Fires(tbl, fl, skip, data[..k], i);
    } else {
      var i: nat :| i < |tbl.rules| && RuleDecides(tbl, fl, more, data, i);
      assert RuleDecides(tbl, fl, skip, data, i);
    }
  }
}
