/** What the counting patterns count: the number that a summary line states (ci_contract.py:1707-1724,
    ci_runner.py:96-105, 1553-1567). */
module RequirementCounts {
  import opened EvidenceText
  import opened RequirementMarkers
  import N = Numerals
  import T = YamlText

  // ----- one match -----

  ghost predicate Lacks(s: Bytes, text: string) { forall i: nat :: !At(s, i, text) }

  /** The text stands in the log exactly once, there. */
  ghost predicate OnlyAt(s: Bytes, text: string, k: nat) { forall i: nat :: At(s, i, text) <==> i == k }

  /** A match's own text may start here. */
  predicate MayStart(p: Pattern, s: Bytes, i: nat)
    requires i <= |s|
  {
    !p.boundary || i == 0 || T.Whitespace(s[i - 1])
  }

  /** From `i` on no match starts but at `b`. */
  ghost predicate NoneBut(p: Pattern, s: Bytes, i: nat, b: int) {
    forall c: nat | i <= c <= |s| && c != b && MayStart(p, s, c) :: Body(p, s, c).None?
  }

  lemma NoMatch(p: Pattern, s: Bytes, i: nat, b: int)
    requires i < |s| && NoneBut(p, s, i, b) && (i == 0 ==> b != 0) && b != (if p.boundary then i + 1 else i)
    ensures MatchAt(p, s, i).None?
  {
    hide Body;
    assert MayStart(p, s, i) ==> i == b || Body(p, s, i).None?;
    assert T.Whitespace(s[i]) ==> MayStart(p, s, i + 1);
    assert MayStart(p, s, i + 1) ==> i + 1 == b || Body(p, s, i + 1).None?;
  }

  lemma {:induction false} NoCount(p: Pattern, s: Bytes, i: nat)
    requires i <= |s| && NoneBut(p, s, i, -1)
    ensures CountFrom(p, s, i) == 0
    decreases |s| - i
  {
    if i < |s| {
      NoMatch(p, s, i, -1);
      NoCount(p, s, i + 1);
    }
  }

  /** Where the scan meets the match at `b`: one before it if a blank has to stand there. */
  function Meets(p: Pattern, b: nat): nat { if p.boundary && b > 0 then b - 1 else b }

  lemma {:induction false} SkipTo(p: Pattern, s: Bytes, i: nat, b: nat)
    requires b <= |s| && i <= Meets(p, b) && NoneBut(p, s, i, b)
    ensures CountFrom(p, s, i) == CountFrom(p, s, Meets(p, b))
    decreases Meets(p, b) - i
  {
    if i < Meets(p, b) {
      NoMatch(p, s, i, b);
      SkipTo(p, s, i + 1, b);
    }
  }

  /** A log with one place where a match starts counts the number there. */
  lemma OneCount(p: Pattern, s: Bytes, b: nat)
    requires b <= |s| && Body(p, s, b).Some? && MayStart(p, s, b) && NoneBut(p, s, 0, b)
    ensures Count(p, s) == Body(p, s, b).value.1
  {
    hide Body;
    var (e, n) := Body(p, s, b).value;
    SkipTo(p, s, 0, b);
    assert MatchAt(p, s, Meets(p, b)) == Some((e, n)) by {
      if p.boundary && b == 1 { assert MayStart(p, s, 0); }
    }
    NoCount(p, s, e);
  }

  // ----- a number and the text around it -----

  lemma {:induction false} DigitsAre(s: Bytes, d: nat, k: nat)
    requires d <= k <= |s| && (forall i :: d <= i < k ==> N.IsDigit(s[i])) && (k < |s| ==> !N.IsDigit(s[k]))
    ensures Digits(s, d) == k - d
    decreases k - d
  {
    if d < k {
      DigitsAre(s, d + 1, k);
    }
  }

  lemma NumberReads(s: Bytes, front: Bytes, n: nat, rest: Bytes)
    requires s == front + N.Decimal(n) + rest && (rest != "" ==> !N.IsDigit(rest[0]))
    ensures
      var k := |front| + |N.Decimal(n)|;
      Digits(s, |front|) == |N.Decimal(n)| && k <= |s| && s[|front|..k] == N.Decimal(n)
  {
    hide N.Decimal, N.ParseDecimal, N.IsDigit, Digits;
    var digits, d := N.Decimal(n), |front|;
    N.DecimalParses(n);
    var k := d + |digits|;
    assert s[d..k] == digits;
    forall i | d <= i < k ensures N.IsDigit(s[i]) {
      assert s[i] == digits[i - d] && digits[i - d] in digits;
    }
    assert k < |s| ==> s[k] == rest[0];
    DigitsAre(s, d, k);
  }

  lemma BodyReads(p: Pattern, s: Bytes, head: Bytes, n: nat, rest: Bytes)
    requires s == head + p.before + N.Decimal(n) + rest && (rest != "" ==> !N.IsDigit(rest[0]))
    ensures
      var k := |head| + |p.before| + |N.Decimal(n)|;
      Body(p, s, |head|) == match EndOf(p, p.afters, s, k) case None => None case Some(e) => Some((e, n))
  {
    hide EndOf, Digits, N.Decimal, N.ParseDecimal;
    N.DecimalParses(n);
    assert s == (head + p.before) + N.Decimal(n) + rest;
    NumberReads(s, head + p.before, n, rest);
    assert s[|head|..|head| + |p.before|] == p.before;
  }

  predicate Stops(p: Pattern, rest: Bytes) { rest == "" || T.Whitespace(rest[0]) || rest[0] in p.stops }

  lemma EndFirst(p: Pattern, s: Bytes, front: Bytes, after: string, rest: Bytes, more: seq<string>)
    requires s == front + after + rest && p.ended && Stops(p, rest)
    ensures EndOf(p, [after] + more, s, |front|).Some?
  {
    assert s[|front|..|front| + |after|] == after;
    assert rest != "" ==> s[|front| + |after|] == rest[0];
  }

  lemma BodyNeeds(p: Pattern, s: Bytes, c: nat)
    requires c <= |s| && Body(p, s, c).Some?
    ensures At(s, c, p.before) && Digits(s, c + |p.before|) > 0
    ensures exists k :: 0 <= k < |p.afters|
              && At(s, c + |p.before| + Digits(s, c + |p.before|), p.afters[k])
  {
    EndNeeds(p, p.afters, s, c + |p.before| + Digits(s, c + |p.before|));
  }

  lemma {:induction false} EndNeeds(p: Pattern, afters: seq<string>, s: Bytes, i: nat)
    requires i <= |s| && EndOf(p, afters, s, i).Some?
    ensures exists k :: 0 <= k < |afters| && At(s, i, afters[k])
  {
    if !At(s, i, afters[0]) {
      EndNeeds(p, afters[1..], s, i);
      var k :| 0 <= k < |afters[1..]| && At(s, i, afters[1..][k]);
      assert afters[k + 1] == afters[1..][k];
    }
  }

  // ----- the three patterns -----

  const PASSED := " passed"
  const RAN := "Ran "
  const CHECKS := "CHECKS_EXECUTED="

  /** A log without its words counts nothing under a pattern. */
  lemma PassedNeedsWord(s: Bytes)
    requires Lacks(s, PASSED)
    ensures Count(PYTEST[0], s) == 0
  {
    forall c: nat | c <= |s| && MayStart(PYTEST[0], s, c) ensures Body(PYTEST[0], s, c).None? {
      if Body(PYTEST[0], s, c).Some? { BodyNeeds(PYTEST[0], s, c); }
    }
    NoCount(PYTEST[0], s, 0);
  }

  lemma BeforeNeeded(p: Pattern, s: Bytes)
    requires Lacks(s, p.before)
    ensures Count(p, s) == 0
  {
    forall c: nat | c <= |s| && MayStart(p, s, c) ensures Body(p, s, c).None? {
      if Body(p, s, c).Some? { BodyNeeds(p, s, c); }
    }
    NoCount(p, s, 0);
  }

  /** Before the digits of a "passed" there is a blank or nothing. */
  predicate Opens(head: Bytes) { head == "" || T.Whitespace(head[|head| - 1]) }

  /** No "passed" match starts elsewhere: its digits would have to end where these do. */
  lemma PassedElsewhere(s: Bytes, head: Bytes, n: nat, tail: Bytes, c: nat)
    requires s == head + N.Decimal(n) + tail && Opens(head) && OnlyAt(s, PASSED, |head| + |N.Decimal(n)|)
    requires c <= |s| && c != |head| && MayStart(PYTEST[0], s, c)
    ensures Body(PYTEST[0], s, c).None?
  {
    hide Body, At;
    var digits := N.Decimal(n);
    N.DecimalParses(n);
    forall i | |head| <= i < |head| + |digits| ensures N.IsDigit(s[i]) {
      assert s[i] == digits[i - |head|] && digits[i - |head|] in digits;
    }
    assert c < |head| ==> s[|head| - 1] == head[|head| - 1];
    if Body(PYTEST[0], s, c).Some? {
      BodyNeeds(PYTEST[0], s, c);
    }
  }

  lemma PassedBody(s: Bytes, head: Bytes, n: nat, tail: Bytes)
    requires s == head + N.Decimal(n) + PASSED + tail && Stops(PYTEST[0], tail)
    ensures Body(PYTEST[0], s, |head|).Some? && Body(PYTEST[0], s, |head|).value.1 == n
  {
    hide EndOf;
    var p, rest := PYTEST[0], PASSED + tail;
    assert s == head + p.before + N.Decimal(n) + rest && rest[0] == ' ';
    BodyReads(p, s, head, n, rest);
    assert [PASSED] + [] == p.afters;
    EndFirst(p, s, head + N.Decimal(n), PASSED, tail, []);
  }

  lemma PassedOnce(s: Bytes, head: Bytes, n: nat, tail: Bytes)
    requires s == head + N.Decimal(n) + PASSED + tail && Opens(head) && Stops(PYTEST[0], tail)
    requires OnlyAt(s, PASSED, |head| + |N.Decimal(n)|)
    ensures Count(PYTEST[0], s) == n
  {
    hide Body, At, Count;
    var p := PYTEST[0];
    PassedBody(s, head, n, tail);
    assert |head| > 0 ==> s[|head| - 1] == head[|head| - 1];
    assert s == head + N.Decimal(n) + (PASSED + tail);
    forall c: nat | c <= |s| && c != |head| && MayStart(p, s, c) ensures Body(p, s, c).None? {
      PassedElsewhere(s, head, n, PASSED + tail, c);
    }
    OneCount(p, s, |head|);
  }

  /** Under the other two patterns a match starts where their first words stand. */
  lemma WordOnce(p: Pattern, s: Bytes, k: nat)
    requires k <= |s| && OnlyAt(s, p.before, k) && MayStart(p, s, k) && Body(p, s, k).Some?
    ensures Count(p, s) == Body(p, s, k).value.1
  {
    hide At, Count;
    forall c: nat | c <= |s| && c != k && MayStart(p, s, c) ensures Body(p, s, c).None? {
      if Body(p, s, c).Some? { BodyNeeds(p, s, c); }
    }
    OneCount(p, s, k);
  }

  lemma RanOnce(s: Bytes, head: Bytes, n: nat, plural: bool, tail: Bytes)
    requires s == head + RAN + N.Decimal(n) + (if plural then " tests" else " test") + tail
    requires Opens(head) && Stops(PYTEST[1], tail) && OnlyAt(s, RAN, |head|)
    ensures Count(PYTEST[1], s) == n
  {
    hide At, Count, EndOf;
    var p, word := PYTEST[1], if plural then " tests" else " test";
    var front, rest := head + RAN + N.Decimal(n), word + tail;
    assert s == head + p.before + N.Decimal(n) + rest && rest[0] == ' ';
    BodyReads(p, s, head, n, rest);
    RanEnds(s, front, plural, tail);
    assert |head| > 0 ==> s[|head| - 1] == head[|head| - 1];
    WordOnce(p, s, |head|);
  }

  lemma RanEnds(s: Bytes, front: Bytes, plural: bool, tail: Bytes)
    requires s == front + (if plural then " tests" else " test") + tail && Stops(PYTEST[1], tail)
    ensures EndOf(PYTEST[1], PYTEST[1].afters, s, |front|).Some?
  {
    var p := PYTEST[1];
    assert p.afters == [" tests"] + [" test"] && p.afters[1..] == [" test"] + [];
    if plural {
      EndFirst(p, s, front, " tests", tail, [" test"]);
    } else {
      EndFirst(p, s, front, " test", tail, []);
      assert [" test"] + [] == [" test"];
    }
  }

  lemma ChecksOnce(s: Bytes, head: Bytes, n: nat, tail: Bytes)
    requires s == head + CHECKS + N.Decimal(n) + tail && (tail != "" ==> !N.IsDigit(tail[0]))
    requires OnlyAt(s, CHECKS, |head|)
    ensures Count(PYTEST[2], s) == n
  {
    hide Count;
    var p, k := PYTEST[2], |head| + |CHECKS| + |N.Decimal(n)|;
    BodyReads(p, s, head, n, tail);
    assert At(s, k, p.afters[0]);
    WordOnce(p, s, |head|);
  }

  // ----- summary lines -----

  /** A log that says once how many passed, and nothing else that counts, counts that many. */
  lemma PassedLineCounts(head: Bytes, n: nat, tail: Bytes)
    requires Opens(head) && Stops(PYTEST[0], tail)
    requires
      var s := head + N.Decimal(n) + PASSED + tail;
      OnlyAt(s, PASSED, |head| + |N.Decimal(n)|) && Lacks(s, RAN) && Lacks(s, CHECKS)
    ensures Total(PYTEST, head + N.Decimal(n) + PASSED + tail) == n
  {
    hide OnlyAt, Lacks, Count;
    var s := head + N.Decimal(n) + PASSED + tail;
    PassedOnce(s, head, n, tail);
    BeforeNeeded(PYTEST[1], s);
    BeforeNeeded(PYTEST[2], s);
    TotalOfThree(s);
  }

  lemma TotalOfThree(s: Bytes)
    ensures Total(PYTEST, s) == Count(PYTEST[0], s) + Count(PYTEST[1], s) + Count(PYTEST[2], s)
  {
    hide Count;
    assert Total(PYTEST[3..], s) == 0;
    assert PYTEST[2..][1..] == PYTEST[3..] && Total(PYTEST[2..], s) == Count(PYTEST[2], s);
    assert PYTEST[1..][1..] == PYTEST[2..] && Total(PYTEST[1..], s) == Count(PYTEST[1], s) + Count(PYTEST[2], s);
  }

  lemma RanLineCounts(head: Bytes, n: nat, plural: bool, tail: Bytes)
    requires Opens(head) && Stops(PYTEST[1], tail)
    requires
      var s := head + RAN + N.Decimal(n) + (if plural then " tests" else " test") + tail;
      Lacks(s, PASSED) && OnlyAt(s, RAN, |head|) && Lacks(s, CHECKS)
    ensures Total(PYTEST, head + RAN + N.Decimal(n) + (if plural then " tests" else " test") + tail) == n
  {
    hide OnlyAt, Lacks, Count;
    var s := head + RAN + N.Decimal(n) + (if plural then " tests" else " test") + tail;
    PassedNeedsWord(s);
    RanOnce(s, head, n, plural, tail);
    BeforeNeeded(PYTEST[2], s);
    TotalOfThree(s);
  }

  lemma ChecksLineCounts(head: Bytes, n: nat, tail: Bytes)
    requires tail != "" ==> !N.IsDigit(tail[0])
    requires
      var s := head + CHECKS + N.Decimal(n) + tail;
      Lacks(s, PASSED) && Lacks(s, RAN) && OnlyAt(s, CHECKS, |head|)
    ensures Total(PYTEST, head + CHECKS + N.Decimal(n) + tail) == n
  {
    hide OnlyAt, Lacks, Count;
    var s := head + CHECKS + N.Decimal(n) + tail;
    PassedNeedsWord(s);
    BeforeNeeded(PYTEST[1], s);
    ChecksOnce(s, head, n, tail);
    TotalOfThree(s);
  }

  // ----- the lines themselves -----

  lemma CharMissing(s: Bytes, text: string, k: nat)
    requires k < |text| && text[k] !in s
    ensures Lacks(s, text)
  {
    forall i: nat ensures !At(s, i, text) {
      if At(s, i, text) { AtReads(s, i, text, k); }
    }
  }

  /** A character that the log holds once fixes where a text with it can stand. */
  lemma CharOnce(s: Bytes, text: string, k: nat, at: nat)
    requires k < |text| && k <= at && At(s, at - k, text)
    requires forall j :: 0 <= j < |s| && s[j] == text[k] ==> j == at
    ensures OnlyAt(s, text, at - k)
  {
    forall i: nat ensures At(s, i, text) <==> i == at - k {
      if At(s, i, text) { AtReads(s, i, text, k); }
    }
  }

  lemma DecimalHas(n: nat, c: char)
    requires !N.IsDigit(c)
    ensures c !in N.Decimal(n)
  {
    N.DecimalParses(n);
  }

  /** Where a character that is no digit can stand in a text around a number. */
  lemma Around(front: Bytes, n: nat, rest: Bytes, c: char)
    requires !N.IsDigit(c)
    ensures
      var s, k := front + N.Decimal(n) + rest, |front| + |N.Decimal(n)|;
      forall j :: 0 <= j < |s| && s[j] == c ==>
        (j < |front| && front[j] == c) || (k <= j && rest[j - k] == c)
  {
    var s, k := front + N.Decimal(n) + rest, |front| + |N.Decimal(n)|;
    DecimalHas(n, c);
    forall j | |front| <= j < k ensures s[j] != c {
      assert s[j] == N.Decimal(n)[j - |front|] && N.Decimal(n)[j - |front|] in N.Decimal(n);
    }
  }

  const IN_TIME := " in 1s"

  /** The last lines of the three kinds of runner. */
  lemma SummaryLines(n: nat)
    ensures Total(PYTEST, N.Decimal(n) + PASSED + IN_TIME) == n
    ensures Total(PYTEST, RAN + N.Decimal(n) + " tests" + IN_TIME) == n
    ensures Total(PYTEST, CHECKS + N.Decimal(n)) == n
  {
    hide Total, Lacks, OnlyAt;
    PassedLine(n);
    RanLine(n);
    ChecksLine(n);
  }

  lemma PassedWord()
    ensures var rest := PASSED + IN_TIME;
            && PASSED[1] == 'p' && 'R' !in rest && 'C' !in rest
            && forall j :: 0 <= j < |rest| && rest[j] == 'p' ==> j == 1
  {}

  lemma PassedStart(n: nat)
    ensures OnlyAt(N.Decimal(n) + PASSED + IN_TIME, PASSED, |N.Decimal(n)|)
  {
    hide OnlyAt, N.Decimal;
    var digits, rest := N.Decimal(n), PASSED + IN_TIME;
    var s := digits + PASSED + IN_TIME;
    PassedWord();
    Around("", n, rest, 'p');
    assert "" + digits + rest == s;
    assert s[|digits|..|digits| + |PASSED|] == PASSED;
    CharOnce(s, PASSED, 1, |digits| + 1);
  }

  lemma PassedLine(n: nat)
    ensures Total(PYTEST, N.Decimal(n) + PASSED + IN_TIME) == n
  {
    hide Total, Lacks, OnlyAt, N.Decimal;
    var digits, rest := N.Decimal(n), PASSED + IN_TIME;
    var s := digits + PASSED + IN_TIME;
    PassedWord();
    DecimalHas(n, 'R');
    DecimalHas(n, 'C');
    assert s == digits + rest;
    CharMissing(s, RAN, 0);
    CharMissing(s, CHECKS, 0);
    PassedStart(n);
    assert "" + digits + PASSED + IN_TIME == s;
    PassedLineCounts("", n, IN_TIME);
  }

  lemma RanWord()
    ensures var rest := " tests" + IN_TIME;
            && RAN[0] == 'R' && 'p' !in RAN && 'C' !in RAN && 'p' !in rest && 'C' !in rest && 'R' !in rest
            && forall j :: 0 <= j < |RAN| && RAN[j] == 'R' ==> j == 0
  {}

  lemma RanStart(n: nat)
    ensures OnlyAt(RAN + N.Decimal(n) + " tests" + IN_TIME, RAN, 0)
  {
    hide OnlyAt, N.Decimal;
    var word, digits, rest := RAN, N.Decimal(n), " tests" + IN_TIME;
    var s := word + digits + " tests" + IN_TIME;
    RanWord();
    Around(word, n, rest, 'R');
    assert word + digits + rest == s;
    assert s[0..|word|] == word;
    CharOnce(s, word, 0, 0);
  }

  lemma RanLine(n: nat)
    ensures Total(PYTEST, RAN + N.Decimal(n) + " tests" + IN_TIME) == n
  {
    hide Total, Lacks, OnlyAt, N.Decimal;
    var word, digits, rest := RAN, N.Decimal(n), " tests" + IN_TIME;
    var s := word + digits + " tests" + IN_TIME;
    RanWord();
    DecimalHas(n, 'C');
    DecimalHas(n, 'p');
    assert s == word + digits + rest;
    CharMissing(s, PASSED, 1);
    CharMissing(s, CHECKS, 0);
    RanStart(n);
    assert "" + RAN + digits + " tests" + IN_TIME == s;
    RanLineCounts("", n, true, IN_TIME);
  }

  lemma ChecksWord()
    ensures |CHECKS| == 16 && CHECKS[15] == '=' && 'p' !in CHECKS && 'R' !in CHECKS
    ensures forall j :: 0 <= j < |CHECKS| && CHECKS[j] == '=' ==> j == 15
  {}

  lemma ChecksLine(n: nat)
    ensures Total(PYTEST, CHECKS + N.Decimal(n)) == n
  {
    hide Total, Lacks, OnlyAt, N.Decimal;
    var digits, word := N.Decimal(n), CHECKS;
    var s := word + digits;
    ChecksWord();
    DecimalHas(n, 'p');
    DecimalHas(n, 'R');
    CharMissing(s, PASSED, 1);
    CharMissing(s, RAN, 0);
    assert "" + CHECKS + digits + "" == s;
    ChecksStart(n);
    ChecksLineCounts("", n, "");
  }

  lemma ChecksStart(n: nat)
    ensures OnlyAt(CHECKS + N.Decimal(n), CHECKS, 0)
  {
    hide Total, OnlyAt, N.Decimal;
    var word := CHECKS;
    var s := word + N.Decimal(n);
    ChecksWord();
    Around(word, n, "", '=');
    assert word + N.Decimal(n) + "" == s;
    assert s[0..|word|] == word;
    CharOnce(s, word, 15, 15);
  }

  // ----- several lines -----

  /** No match ends with the last character, so a next line keeps the blank it needs before it. */
  ghost predicate Loose(p: Pattern, a: Bytes) {
    forall i: nat :: i < |a| && MatchAt(p, a, i).Some? ==> MatchAt(p, a, i).value.0 < |a|
  }

  lemma MatchBefore(p: Pattern, a: Bytes, b: Bytes, i: nat)
    requires EndsLine(a) && PlainPattern(p) && i + 1 < |a|
    ensures MatchAt(p, a + b, i) == MatchAt(p, a, i)
  {
    hide Body, PlainPattern;
    assert (a + b)[i] == a[i];
    BodyJoin(p, a, b, i);
    BodyJoin(p, a, b, i + 1);
    BodyJoin(p, a, b, 0);
  }

  /** A match right behind a text, counted in the longer one as in the text on its own. */
  lemma {:induction false} CountBehind(p: Pattern, a: Bytes, b: Bytes, i: nat)
    requires i <= |b| && (i > 0 || Body(p, b, 0).None? || !p.boundary) && a != ""
    ensures CountFrom(p, a + b, |a| + i) == CountFrom(p, b, i)
    decreases |b| - i
  {
    hide Body;
    if i < |b| {
      assert (a + b)[|a| + i] == b[i];
      BodyShift(p, a, b, i);
      BodyShift(p, a, b, i + 1);
      assert MatchAt(p, a + b, |a| + i) == MovedMatch(|a|, MatchAt(p, b, i));
      var m := MatchAt(p, b, i);
      CountBehind(p, a, b, if m.Some? then m.value.0 else i + 1);
    }
  }

  lemma NothingAtBreak(p: Pattern, a: Bytes)
    requires EndsLine(a) && PlainPattern(p)
    ensures Body(p, a, |a| - 1).None?
  {
    var k := |a| - 1;
    if p.before != "" {
      assert p.before[0] in p.before;
      if At(a, k, p.before) { AtReads(a, k, p.before, 0); }
    }
    if Body(p, a, k).Some? { BodyNeeds(p, a, k); }
  }

  /** The last line break of a text, and what follows it. */
  lemma CountAtBreak(p: Pattern, a: Bytes, b: Bytes)
    requires EndsLine(a) && |a| > 1 && PlainPattern(p)
    ensures CountFrom(p, a + b, |a| - 1) == CountFrom(p, a, |a| - 1) + Count(p, b)
  {
    hide Body, PlainPattern;
    var k := |a| - 1;
    BreakCountsNothing(p, a);
    if b == "" {
      assert a + b == a && Count(p, b) == 0;
    } else if p.boundary && Body(p, b, 0).Some? {
      var (e, n) := Body(p, b, 0).value;
      MatchAtBreak(p, a, b);
      CountBehind(p, a, b, e);
    } else {
      MatchAtBreak(p, a, b);
      CountBehind(p, a, b, 0);
    }
  }

  lemma BreakCountsNothing(p: Pattern, a: Bytes)
    requires EndsLine(a) && |a| > 1 && PlainPattern(p)
    ensures CountFrom(p, a, |a| - 1) == 0
  {
    hide Body, PlainPattern;
    NothingAtBreak(p, a);
    NothingAtEnd(p, a);
    assert MatchAt(p, a, |a| - 1).None?;
    assert CountFrom(p, a, |a|) == 0;
  }

  lemma MatchAtBreak(p: Pattern, a: Bytes, b: Bytes)
    requires EndsLine(a) && |a| > 1 && PlainPattern(p) && b != ""
    ensures MatchAt(p, a + b, |a| - 1) == if p.boundary then MovedMatch(|a|, Body(p, b, 0)) else None
  {
    hide Body, PlainPattern;
    assert (a + b)[|a| - 1] == '\n' && T.Whitespace('\n');
    NothingAtBreak(p, a);
    BodyJoin(p, a, b, |a| - 1);
    BodyShift(p, a, b, 0);
  }

  lemma {:induction false} CountLoose(p: Pattern, a: Bytes, b: Bytes, i: nat)
    requires EndsLine(a) && |a| > 1 && PlainPattern(p) && Loose(p, a) && i < |a|
    ensures CountFrom(p, a + b, i) == CountFrom(p, a, i) + Count(p, b)
    decreases |a| - i
  {
    hide MatchAt, Body, PlainPattern;
    if i + 1 == |a| {
      CountAtBreak(p, a, b);
    } else {
      MatchBefore(p, a, b, i);
      var m := MatchAt(p, a, i);
      CountLoose(p, a, b, if m.Some? then m.value.0 else i + 1);
    }
  }

  lemma {:induction false} EndBeforeBreak(p: Pattern, afters: seq<string>, a: Bytes, i: nat)
    requires EndsLine(a) && i < |a| && forall k :: 0 <= k < |afters| ==> PlainText(afters[k])
    requires p.ended ==> forall k :: 0 <= k < |afters| ==> !EndsIn(a, afters[k])
    ensures EndOf(p, afters, a, i).Some? ==> EndOf(p, afters, a, i).value < |a|
  {
    if afters != [] {
      var j := i + |afters[0]|;
      if At(a, i, afters[0]) && j == |a| && afters[0] != "" {
        NotAcross(a, i, afters[0], |a| - 1);
      }
      EndBeforeBreak(p, afters[1..], a, i);
    }
  }

  /** This text ends the last line. */
  predicate EndsIn(a: Bytes, text: string) { |text| < |a| && At(a, |a| - 1 - |text|, text) }

  lemma BodyBeforeBreak(p: Pattern, a: Bytes, i: nat)
    requires EndsLine(a) && i < |a| && PlainPattern(p)
    requires p.ended ==> forall k :: 0 <= k < |p.afters| ==> !EndsIn(a, p.afters[k])
    ensures Body(p, a, i).Some? ==> Body(p, a, i).value.0 < |a|
  {
    hide EndOf, EndsIn;
    if Body(p, a, i).Some? {
      var d := i + |p.before|;
      assert a[|a| - 1] == '\n' && !N.IsDigit('\n');
      EndBeforeBreak(p, p.afters, a, d + Digits(a, d));
    }
  }

  lemma LooseIf(p: Pattern, a: Bytes)
    requires EndsLine(a) && PlainPattern(p)
    requires p.ended ==> forall k :: 0 <= k < |p.afters| ==> !EndsIn(a, p.afters[k])
    ensures Loose(p, a)
  {
    hide Body, EndsIn, PlainPattern;
    forall i: nat | i < |a| && MatchAt(p, a, i).Some? ensures MatchAt(p, a, i).value.0 < |a| {
      BodyBeforeBreak(p, a, i);
      if i + 1 < |a| { BodyBeforeBreak(p, a, i + 1); }
      BodyBeforeBreak(p, a, 0);
      NothingAtEnd(p, a);
    }
  }

  /** A finished line that does not end in "passed", "test" or "tests": what follows it is counted on its own. */
  lemma LinesAddUp(a: Bytes, b: Bytes)
    requires EndsLine(a) && |a| > 1 && !EndsIn(a, PASSED) && !EndsIn(a, " test") && !EndsIn(a, " tests")
    ensures Total(PYTEST, a + b) == Total(PYTEST, a) + Total(PYTEST, b)
  {
    hide Count, EndsIn, Loose, PlainPattern;
    PytestPatternsArePlain();
    LooseIf(PYTEST[0], a);
    LooseIf(PYTEST[1], a);
    LooseIf(PYTEST[2], a);
    CountLooseAll(PYTEST[0], a, b);
    CountLooseAll(PYTEST[1], a, b);
    CountLooseAll(PYTEST[2], a, b);
    TotalOfThree(a);
    TotalOfThree(b);
    TotalOfThree(a + b);
  }

  lemma CountLooseAll(p: Pattern, a: Bytes, b: Bytes)
    requires EndsLine(a) && |a| > 1 && PlainPattern(p) && Loose(p, a)
    ensures Count(p, a + b) == Count(p, a) + Count(p, b)
  {
    CountLoose(p, a, b, 0);
  }

  // ----- whole logs of summaries -----

  datatype Runner = Pytest | Unittest | Script

  /** The line in which a runner says how many it ran. */
  function Summary(runner: Runner, n: nat): Bytes {
    match runner
    case Pytest => N.Decimal(n) + PASSED + IN_TIME
    case Unittest => RAN + N.Decimal(n) + " tests" + IN_TIME
    case Script => CHECKS + N.Decimal(n)
  }

  function Log(runs: seq<(Runner, nat)>): Bytes {
    if runs == [] then "" else Summary(runs[0].0, runs[0].1) + "\n" + Log(runs[1..])
  }

  function Sum(runs: seq<(Runner, nat)>): nat { if runs == [] then 0 else runs[0].1 + Sum(runs[1..]) }

  lemma EndsInReads(a: Bytes, text: string)
    requires |text| >= 2
    ensures EndsIn(a, text) ==> a[|a| - 2] == text[|text| - 1] && a[|a| - 3] == text[|text| - 2]
  {
    if EndsIn(a, text) {
      AtReads(a, |a| - 1 - |text|, text, |text| - 1);
      AtReads(a, |a| - 1 - |text|, text, |text| - 2);
    }
  }

  lemma SummaryEnds(runner: Runner, n: nat)
    ensures
      var a := Summary(runner, n) + "\n";
      |a| > 1 && !EndsIn(a, PASSED) && !EndsIn(a, " test") && !EndsIn(a, " tests")
  {
    var a := Summary(runner, n) + "\n";
    N.DecimalParses(n);
    var digits := N.Decimal(n);
    assert digits[|digits| - 1] in digits;
    var k := |a| - 2;
    assert runner.Script? ==> N.IsDigit(a[k]);
    assert !runner.Script? ==> a[k - 1] == '1';
    EndsInReads(a, PASSED);
    EndsInReads(a, " test");
    EndsInReads(a, " tests");
  }

  lemma SummaryCounts(runner: Runner, n: nat)
    ensures Total(PYTEST, Summary(runner, n) + "\n") == n
  {
    hide Count;
    var s := Summary(runner, n);
    SummaryLines(n);
    N.DecimalParses(n);
    PytestPatternsArePlain();
    SummaryUnfinished(runner, n);
    CountFinish(PYTEST[0], s, 0);
    CountFinish(PYTEST[1], s, 0);
    CountFinish(PYTEST[2], s, 0);
    CountsFrom(s);
    TotalOfThree(s);
    TotalOfThree(s + "\n");
  }

  lemma SummaryUnfinished(runner: Runner, n: nat)
    ensures Unfinished(Summary(runner, n))
  {
    N.DecimalParses(n);
    var digits := N.Decimal(n);
    assert digits[|digits| - 1] in digits;
  }

  lemma CountsFrom(s: Bytes)
    ensures forall i :: 0 <= i < 3 ==> Count(PYTEST[i], s) == CountFrom(PYTEST[i], s, 0)
    ensures forall i :: 0 <= i < 3 ==> Count(PYTEST[i], s + "\n") == CountFrom(PYTEST[i], s + "\n", 0)
  {}

  /** A log of summary lines, whichever runners wrote them, counts the sum of the numbers they state. */
  lemma {:induction false} SummariesAddUp(runs: seq<(Runner, nat)>)
    ensures Total(PYTEST, Log(runs)) == Sum(runs)
  {
    hide Total, Summary, EndsIn;
    if runs == [] {
      NothingTotal();
    } else {
      var a := Summary(runs[0].0, runs[0].1) + "\n";
      SummaryEnds(runs[0].0, runs[0].1);
      SummaryCounts(runs[0].0, runs[0].1);
      LinesAddUp(a, Log(runs[1..]));
      SummariesAddUp(runs[1..]);
    }
  }

  lemma NothingTotal()
    ensures Total(PYTEST, "") == 0
  {
    TotalOfThree("");
    NothingToCount(PYTEST[0]);
    NothingToCount(PYTEST[1]);
    NothingToCount(PYTEST[2]);
  }

  /** Without text after the word the line break is consumed by the first match, and a count that starts the next line
      is not seen. */
  lemma BreakIsConsumed(m: nat, n: nat)
    ensures Count(PYTEST[0], N.Decimal(m) + PASSED + "\n" + N.Decimal(n) + PASSED) == m
  {
    hide Body;
    var p, first, second := PYTEST[0], N.Decimal(m) + PASSED + "\n", N.Decimal(n) + PASSED;
    var s := first + second;
    assert s == N.Decimal(m) + PASSED + "\n" + N.Decimal(n) + PASSED;
    FirstConsumes(m, second);
    forall c: nat | |first| < c <= |s| && T.Whitespace(s[c - 1]) ensures Body(p, s, c).None? {
      SecondIsMissed(m, n, c);
    }
    NothingBehind(p, s, |first|);
    assert MatchAt(p, s, 0) == Body(p, s, 0);
  }

  lemma {:induction false} NothingBehind(p: Pattern, s: Bytes, i: nat)
    requires p.boundary && 0 < i <= |s|
    requires forall c: nat | i < c <= |s| && T.Whitespace(s[c - 1]) :: Body(p, s, c).None?
    ensures CountFrom(p, s, i) == 0
    decreases |s| - i
  {
    hide Body;
    if i < |s| {
      assert MatchAt(p, s, i).None?;
      NothingBehind(p, s, i + 1);
    }
  }

  lemma FirstConsumes(m: nat, second: Bytes)
    ensures
      var first := N.Decimal(m) + PASSED + "\n";
      Body(PYTEST[0], first + second, 0) == Some((|first|, m))
  {
    hide EndOf;
    var p, digits := PYTEST[0], N.Decimal(m);
    var rest := PASSED + ("\n" + second);
    var s := digits + PASSED + "\n" + second;
    assert s == "" + p.before + digits + rest && rest[0] == ' ';
    BodyReads(p, s, "", m, rest);
    BreakEnds(s, digits, second);
  }

  lemma BreakEnds(s: Bytes, digits: Bytes, second: Bytes)
    requires s == digits + PASSED + "\n" + second
    ensures EndOf(PYTEST[0], PYTEST[0].afters, s, |digits|) == Some(|digits| + |PASSED| + 1)
  {
    var word := PASSED;
    assert s[|digits|..|digits| + |word|] == word && s[|digits| + |word|] == '\n' && T.Whitespace('\n');
    assert PYTEST[0].afters[0] == word;
  }

  lemma SecondIsMissed(m: nat, n: nat, c: nat)
    requires
      var first, second := N.Decimal(m) + PASSED + "\n", N.Decimal(n) + PASSED;
      var s := first + second;
      |first| < c <= |s| && T.Whitespace(s[c - 1])
    ensures Body(PYTEST[0], N.Decimal(m) + PASSED + "\n" + (N.Decimal(n) + PASSED), c).None?
  {
    hide Body, EndOf;
    var s := N.Decimal(m) + PASSED + "\n" + (N.Decimal(n) + PASSED);
    SecondBlank(N.Decimal(m) + PASSED + "\n", n, c);
    assert Digits(s, c) == 0;
    if Body(PYTEST[0], s, c).Some? { BodyNeeds(PYTEST[0], s, c); }
  }

  /** The one blank after a count that starts a line stands before a word. */
  lemma SecondBlank(first: Bytes, n: nat, c: nat)
    requires
      var s := first + (N.Decimal(n) + PASSED);
      |first| < c <= |s| && T.Whitespace(s[c - 1])
    ensures
      var s := first + (N.Decimal(n) + PASSED);
      c < |s| && s[c] == 'p'
  {
    var digits := N.Decimal(n);
    var s, k := first + (digits + PASSED), |first| + |digits|;
    N.DecimalParses(n);
    forall i | |first| <= i < k ensures !T.Whitespace(s[i]) {
      assert s[i] == digits[i - |first|] && digits[i - |first|] in digits;
    }
    assert s[c - 1] == PASSED[c - 1 - k];
    assert c == k + 1 && s[c] == PASSED[1];
  }

  // ----- a name that counts -----

  predicate Unspaced(s: Bytes) { forall c :: c in s ==> !T.Whitespace(c) }

  lemma {:induction false} CountSkips(p: Pattern, s: Bytes, i: nat, k: nat)
    requires p.boundary && Apart(p, s) && i <= k <= |s| && Unspaced(s[..k])
    ensures CountFrom(p, s, i) == CountFrom(p, s, k)
    decreases k - i
  {
    hide Body;
    if i < k {
      assert s[..k][i] == s[i] && s[i] in s[..k];
      CountSkips(p, s, i + 1, k);
    }
  }

  function Counted(n: nat): Bytes { " " + N.Decimal(n) + " passed " }

  lemma CountedMatches(u: Bytes, n: nat, v: Bytes)
    requires u != ""
    ensures
      var s := u + Counted(n) + v;
      MatchAt(PYTEST[0], s, |u|).Some? && MatchAt(PYTEST[0], s, |u|).value.1 == n
  {
    hide Body;
    var s, tail := u + Counted(n) + v, " " + v;
    assert s == (u + " ") + N.Decimal(n) + PASSED + tail && T.Whitespace(tail[0]) && s[|u|] == ' ';
    PassedBody(s, u + " ", n, tail);
  }

  lemma CountsAtLeast(p: Pattern, s: Bytes, i: nat)
    requires i < |s| && MatchAt(p, s, i).Some?
    ensures CountFrom(p, s, i) >= MatchAt(p, s, i).value.1
  {}

  /** A bound name may contain text that reads as any count, since only line breaks and NUL are forbidden in it: such a
      record adds that number to the count that is derived again, but not to the one taken when the job ran. */
  lemma NameIsCounted(codec: Codec, child: Bytes, o: Observation, before: Bytes, n: nat, after: Bytes)
    requires codec.json(o) == before + Counted(n) + after && Unspaced(before)
    ensures Total(PYTEST, Appended(codec, child, [o])) >= Total(PYTEST, child) + n
  {
    hide MatchAt, Apart, Counted, Appended, Total;
    var p, u, v := PYTEST[0], MARKER + before, after + "\n";
    var record := Concat(Markers(codec, [o]));
    OneRecord(codec, o, before, Counted(n), after);
    PytestPatternsArePlain();
    PytestPatternsSkipRecords();
    RecordsApart(p, codec, [o]);
    MarkerUnspaced();
    assert record[..|u|] == u;
    CountSkips(p, record, 0, |u|);
    CountedMatches(u, n, v);
    CountsAtLeast(p, record, |u|);
    TotalOfAppended(PYTEST, codec, child, [o]);
    TotalOfThree(record);
  }

  lemma OneRecord(codec: Codec, o: Observation, before: Bytes, counted: Bytes, after: Bytes)
    requires codec.json(o) == before + counted + after
    ensures Concat(Markers(codec, [o])) == MARKER + before + counted + (after + "\n")
  {
    var line := Marker(codec, o);
    assert Markers(codec, [o]) == [line] && [line][1..] == [] && Concat([line][1..]) == "";
    assert line == MARKER + (before + counted + after) + "\n";
  }

  lemma MarkerUnspaced()
    ensures Unspaced(MARKER)
  {}
}
