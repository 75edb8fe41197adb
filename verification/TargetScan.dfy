/** Scanning one input in its two normal forms, and the request target in its two passes. */
module TargetScan {
  import opened Options
  import opened Words
  import opened Patterns
  import opened Automaton
  import opened ScanSpec
  import opened Scan

  function LowerByte(b: Byte): Byte {
    if 65 <= b <= 90 then b + 32 else b
  }

  function PlusToSpace(b: Byte): Byte {
    if b == 43 then 32 else b
  }

  function RawForm(data: Word): Word {
    seq(|data|, i requires 0 <= i < |data| => LowerByte(data[i]))
  }

  /** Percent-decoding is a parameter: the decoder is a library routine. */
  function DecodedForm(unescape: Word -> Word, data: Word): Word {
    var d := unescape(data);
    seq(|d|, i requires 0 <= i < |d| => LowerByte(PlusToSpace(d[i])))
  }

  // ---- what the normal forms fold ----

  /** The same byte, or the two cases of one ASCII letter. */
  predicate SameLetter(a: Byte, b: Byte) {
    a == b || (65 <= a <= 90 && b == a + 32) || (65 <= b <= 90 && a == b + 32)
  }

  ghost predicate SameText(a: Word, b: Word) {
    |a| == |b| && forall i :: 0 <= i < |a| ==> SameLetter(a[i], b[i])
  }

  /** Two inputs have the same raw form exactly when they differ in the case of letters alone. */
  lemma RawFoldsCaseAlone(a: Word, b: Word)
    ensures RawForm(a) == RawForm(b) <==> SameText(a, b)
    ensures SameText(a, RawForm(a)) && forall i :: 0 <= i < |a| ==> !(65 <= RawForm(a)[i] <= 90)
  {
    if RawForm(a) == RawForm(b) {
      assert |a| == |RawForm(a)| == |b|;
      forall i | 0 <= i < |a| ensures SameLetter(a[i], b[i]) {
        assert RawForm(a)[i] == RawForm(b)[i];
      }
    }
  }

  /** The decoded form has spaces for plus signs and small letters for capital ones, and is else what was decoded. */
  lemma DecodedFoldsPlusAndCase(unescape: Word -> Word, data: Word, i: nat)
    requires i < |unescape(data)|
    ensures var d, f := unescape(data)[i], DecodedForm(unescape, data);
            && |f| == |unescape(data)| && !(65 <= f[i] <= 90) && f[i] != 43
            && if d == 43 then f[i] == 32 else SameLetter(d, f[i])
  {
  }

  /** The two automata, one per buffer flavour. */
  datatype Engine = Engine(tbl: Table, raw: Machine, decoded: Machine, unescape: Word -> Word) {
    ghost predicate Valid() {
      && tbl.Valid() && raw.nstates != 0 && decoded.nstates != 0
      && Faithful(raw, tbl, Raw) && Faithful(decoded, tbl, Decoded)
    }
  }

  /** Category `c` has a signature in the text, or a rule that reports it has all its terms there. */
  ghost predicate Detects(tbl: Table, fl: Flavour, data: Word, c: nat) {
    || (exists i: nat, k :: i < |tbl.cats| && 0 < k <= |data| && tbl.cats[i].cat == c
                            && fl in tbl.cats[i].flavours && EndsIn(tbl.cats[i], data[..k]))
    || (exists i: nat :: i < |tbl.rules| && tbl.rules[i].cat == c && RuleDecides(tbl, fl, {}, data, i))
  }

  /** Category `c` is detected in the raw or in the decoded form of a non-empty input. */
  ghost predicate Detected(e: Engine, data: Word, c: nat) {
    data != [] && (Detects(e.tbl, Raw, RawForm(data), c) || Detects(e.tbl, Decoded, DecodedForm(e.unescape, data), c))
  }

  /** Some category outside `skip` is detected in the input. */
  ghost predicate Found(e: Engine, data: Word, skip: set<nat>) {
    exists c :: c !in skip && Detected(e, data, c)
  }

  lemma MatchesIffDetects(tbl: Table, fl: Flavour, skip: set<nat>, data: Word)
    ensures Matches(tbl, fl, skip, data) <==> exists c :: c !in skip && Detects(tbl, fl, data, c)
  {
    if Matches(tbl, fl, skip, data) {
      if i: nat, k :| i < |tbl.cats| && 0 < k <= |data| && Fires(tbl, fl, skip, data[..k], i) {
        assert Detects(tbl, fl, data, tbl.cats[i].cat);
      } else {
        var i: nat :| i < |tbl.rules| && RuleDecides(tbl, fl, skip, data, i);
        assert RuleDecides(tbl, fl, {}, data, i);
        assert Detects(tbl, fl, data, tbl.rules[i].cat);
      }
    }
    if c :| c !in skip && Detects(tbl, fl, data, c) {
      if i: nat, k :| i < |tbl.cats| && 0 < k <= |data| && tbl.cats[i].cat == c
                      && fl in tbl.cats[i].flavours && EndsIn(tbl.cats[i], data[..k]) {
        assert Fires(tbl, fl, skip, data[..k], i);
      } else {
        var i: nat :| i < |tbl.rules| && tbl.rules[i].cat == c && RuleDecides(tbl, fl, {}, data, i);
        assert RuleDecides(tbl, fl, skip, data, i);
      }
    }
  }

  /** The case of letters does not change the raw answer. */
  lemma RawAnswerIgnoresCase(tbl: Table, a: Word, b: Word, skip: set<nat>, r: Option<nat>)
    requires SameText(a, b)
    ensures Answer(tbl, Raw, skip, RawForm(a), r) <==> Answer(tbl, Raw, skip, RawForm(b), r)
  {
    RawFoldsCaseAlone(a, b);
  }

  /** What a scan of one input must answer: the raw form's answer if that form matches, else the decoded form's. */
  ghost predicate InputAnswer(e: Engine, data: Word, skip: set<nat>, r: Option<nat>) {
    if data == [] then r.None?
    else if Matches(e.tbl, Raw, skip, RawForm(data)) then Answer(e.tbl, Raw, skip, RawForm(data), r)
    else Answer(e.tbl, Decoded, skip, DecodedForm(e.unescape, data), r)
  }

  lemma InputAnswerUnique(e: Engine, data: Word, skip: set<nat>, r: Option<nat>, s: Option<nat>)
    requires e.tbl.Valid() && InputAnswer(e, data, skip, r) && InputAnswer(e, data, skip, s)
    ensures r == s
  {
    if data != [] {
      if Matches(e.tbl, Raw, skip, RawForm(data)) {
        AnswerUnique(e.tbl, Raw, skip, RawForm(data), r, s);
      } else {
        AnswerUnique(e.tbl, Decoded, skip, DecodedForm(e.unescape, data), r, s);
      }
    }
  }

  lemma NotFoundAnswersNone(e: Engine, data: Word, skip: set<nat>)
    requires !Found(e, data, skip)
    ensures InputAnswer(e, data, skip, None)
  {
    MatchesIffDetects(e.tbl, Raw, skip, RawForm(data));
    MatchesIffDetects(e.tbl, Decoded, skip, DecodedForm(e.unescape, data));
    if data != [] {
      NoMatchNoAnswer(e.tbl, Decoded, skip, DecodedForm(e.unescape, data));
    }
  }

  /** The still-encoded form is scanned first; the decoded form only when it found nothing. */
  method ScanInput(e: Engine, data: Word, skip: Mask) returns (r: Option<nat>)
    requires e.Valid()
    ensures r.Some? <==> Found(e, data, skip)
    ensures InputAnswer(e, data, skip, r)
  {
    if data == [] {
      return None;
    }
    MatchesIffDetects(e.tbl, Raw, skip, RawForm(data));
    MatchesIffDetects(e.tbl, Decoded, skip, DecodedForm(e.unescape, data));
    r := AcScan(e.raw, e.tbl, Raw, RawForm(data), skip);
    AnswerIffMatches(e.tbl, Raw, skip, RawForm(data), r);
    if r.None? {
      r := AcScan(e.decoded, e.tbl, Decoded, DecodedForm(e.unescape, data), skip);
      AnswerIffMatches(e.tbl, Decoded, skip, DecodedForm(e.unescape, data), r);
    }
  }

  /** The categories that must not be applied to a query string. */
  method NoQueryMask(tbl: Table) returns (mask: Mask)
    requires tbl.Valid()
    ensures mask == Exempt(tbl) && forall c :: c in mask <==> QueryExempt(tbl, c)
  {
    mask := {};
    for i := 0 to |tbl.cats|
      invariant forall c :: c in mask <==> exists h :: 0 <= h < i && tbl.cats[h].cat == c && tbl.cats[h].noQuery
    {
      if tbl.cats[i].noQuery {
        mask := WithBit(mask, tbl.cats[i].cat);
      }
    }
  }

  function Exempt(tbl: Table): set<nat> {
    set h | 0 <= h < |tbl.cats| && tbl.cats[h].noQuery :: tbl.cats[h].cat
  }

  ghost predicate QueryExempt(tbl: Table, c: nat) {
    exists h :: 0 <= h < |tbl.cats| && tbl.cats[h].cat == c && tbl.cats[h].noQuery
  }

  /** The target up to its first question mark. */
  function PathPart(uri: Word): Word {
    if uri == [] || uri[0] == 63 then [] else [uri[0]] + PathPart(uri[1..])
  }

  /** The path has no question mark, and ends at one or at the end of the target. */
  lemma {:induction false} PathEndsAtQuery(uri: Word)
    ensures var p := PathPart(uri);
            && 63 !in p && |p| <= |uri| && uri[..|p|] == p && (|p| < |uri| ==> uri[|p|] == 63)
  {
    if uri != [] && uri[0] != 63 {
      PathEndsAtQuery(uri[1..]);
    }
  }

  method FindPath(uri: Word) returns (n: nat)
    ensures n <= |uri| && uri[..n] == PathPart(uri)
  {
    n := 0;
    while n < |uri| && uri[n] != 63
      invariant n <= |uri| && PathPart(uri) == uri[..n] + PathPart(uri[n..])
    {
      assert uri[n..][1..] == uri[n + 1..];
      assert uri[..n + 1] == uri[..n] + [uri[n]];
      n := n + 1;
    }
  }

  const AllBits: Mask := set b: nat | b < 64 :: b

  lemma DetectedBelow64(e: Engine, data: Word, c: nat)
    requires e.tbl.Valid() && Detected(e, data, c)
    ensures c < 64
  {
  }

  /** Category `c` is found where it is allowed to count: a query-exempt one in the path only. */
  ghost predicate Counts(e: Engine, uri: Word, c: nat) {
    if QueryExempt(e.tbl, c) then Detected(e, PathPart(uri), c) else Detected(e, uri, c)
  }

  lemma TwoPasses(e: Engine, uri: Word, skip: set<nat>, exempt: set<nat>)
    requires e.tbl.Valid() && forall c :: c in exempt <==> QueryExempt(e.tbl, c)
    ensures (exists c :: c !in skip && Counts(e, uri, c)) <==>
            Found(e, uri, skip + exempt) || Found(e, PathPart(uri), skip + (AllBits - exempt))
  {
    if c :| c !in skip && Counts(e, uri, c) {
      if c in exempt {
        assert c !in skip + (AllBits - exempt) && Detected(e, PathPart(uri), c);
      } else {
        assert c !in skip + exempt && Detected(e, uri, c);
      }
    }
    if c :| c !in skip + exempt && Detected(e, uri, c) {
      assert Counts(e, uri, c);
    }
    if c :| c !in skip + (AllBits - exempt) && Detected(e, PathPart(uri), c) {
      DetectedBelow64(e, PathPart(uri), c);
      assert Counts(e, uri, c);
    }
  }

  // ---- a rule that reports a query-exempt category ----

  /** A query-exempt row, another one, and a rule with two terms that reports the exempt row. */
  const RuleTable := Table([Category(0, [], {Raw}, true), Category(1, [], {Raw}, false)],
                           [Rule(0, [[97], [98]], {Raw})])

  /** `/?ab` */
  const BothTerms: Word := [47, 63, 97, 98]

  lemma RuleFiresThere()
    ensures RuleDecides(RuleTable, Raw, {}, RawForm(BothTerms), 0)
  {
    var data := RawForm(BothTerms);
    assert IsSuffix([97], data[..3]) && IsSuffix([98], data[..4]);
    assert Occurs([97], data) && Occurs([98], data);
    assert Reports(RuleTable, 0, 0);
  }

  lemma PathIsSlash()
    ensures PathPart(BothTerms) == [47] && !Occurs([97], RawForm([47]))
  {
    assert BothTerms[1..] == [63, 97, 98];
    assert PathPart([63, 97, 98]) == [];
    forall k | 0 <= k <= 1 ensures !IsSuffix([97], RawForm([47])[..k]) {
      assert k == 1 ==> RawForm([47])[..k][0] == 47;
    }
  }

  /** The table detects nothing but its rule. */
  lemma OnlyTheRule(fl: Flavour, data: Word, c: nat)
    requires Detects(RuleTable, fl, data, c)
    ensures c == 0 && fl == Raw && Occurs([97], data)
  {
    assert [97] in RuleTable.rules[0].terms;
  }

  lemma NeverCounts(e: Engine, c: nat)
    requires e.tbl == RuleTable
    ensures !Counts(e, BothTerms, c)
  {
    PathIsSlash();
    assert QueryExempt(RuleTable, 0) by {
      assert RuleTable.cats[0].cat == 0 && RuleTable.cats[0].noQuery;
    }
    if Counts(e, BothTerms, c) {
      var data := if QueryExempt(RuleTable, c) then PathPart(BothTerms) else BothTerms;
      if Detects(RuleTable, Raw, RawForm(data), c) {
        OnlyTheRule(Raw, RawForm(data), c);
      } else {
        OnlyTheRule(Decoded, DecodedForm(e.unescape, data), c);
      }
    }
  }

  /** The rule has both its terms in the target, yet neither pass reports it: the first one masks it with its
      category, and the second does not see the query. */
  lemma ExemptRuleIsMasked(e: Engine)
    requires e.tbl == RuleTable
    ensures e.tbl.Valid() && RuleDecides(e.tbl, Raw, {}, RawForm(BothTerms), 0)
    ensures Detected(e, BothTerms, 0) && forall c :: !Counts(e, BothTerms, c)
  {
    RuleFiresThere();
    assert Detects(e.tbl, Raw, RawForm(BothTerms), 0);
    forall c ensures !Counts(e, BothTerms, c) {
      NeverCounts(e, c);
    }
  }

  /** Leaving the second pass out when the path is empty or every exempt category is skipped loses nothing. */
  lemma SecondPassOptional(e: Engine, path: Word, skip: set<nat>, exempt: set<nat>)
    requires e.tbl.Valid() && (path == [] || exempt <= skip)
    ensures !Found(e, path, skip + (AllBits - exempt))
  {
    forall c | Detected(e, path, c) ensures c in skip + (AllBits - exempt) {
      DetectedBelow64(e, path, c);
    }
  }

  /** The second pass: the path alone, with only the query-exempt categories. */
  method PathPass(e: Engine, uri: Word, skip: Mask, exempt: Mask) returns (r: Option<nat>)
    requires e.Valid()
    ensures r.Some? <==> Found(e, PathPart(uri), skip + (AllBits - exempt))
    ensures InputAnswer(e, PathPart(uri), skip + (AllBits - exempt), r)
  {
    var n := FindPath(uri);
    if n != 0 && exempt - skip != {} {
      r := ScanInput(e, uri[..n], skip + (AllBits - exempt));
    } else {
      assert uri[..n] == [] || forall c :: c in exempt ==> c !in exempt - skip;
      SecondPassOptional(e, uri[..n], skip, exempt);
      NotFoundAnswersNone(e, uri[..n], skip + (AllBits - exempt));
      r := None;
    }
  }

  /**
   * The whole target without the query-exempt categories, then the path with only those. A category or rule
   * is reported exactly when it is not skipped and is found where it is allowed to count; what the first pass finds
   * is the answer, and only when it finds nothing the second pass's answer is.
   */
  method InspectTarget(e: Engine, uri: Word, skip: Mask) returns (r: Option<nat>)
    requires e.Valid()
    ensures r.Some? <==> exists c :: c !in skip && Counts(e, uri, c)
    ensures if Found(e, uri, skip + Exempt(e.tbl)) then InputAnswer(e, uri, skip + Exempt(e.tbl), r)
            else InputAnswer(e, PathPart(uri), skip + (AllBits - Exempt(e.tbl)), r)
  {
    if uri == [] {
      return None;
    }
    var exempt := NoQueryMask(e.tbl);
    TwoPasses(e, uri, skip, exempt);
    r := ScanInput(e, uri, skip + exempt);
    if r.None? {
      r := PathPass(e, uri, skip, exempt);
    }
  }
}
