/** Requirement records appended by the parent process, and the counts read from a log (ci_contract.py:382-429,
    1670-1727; ci_runner.py:267-276, 480-516). */
module RequirementMarkers {
  import opened EvidenceText
  import N = Numerals
  import T = YamlText

  const MARKER := "CI_REQUIREMENT_CASE="

  datatype Result<+T> = Ok(value: T) | Refused

  /** What one executed requirement case is, as its parent observed it. */
  datatype Observation = Observation(
    requirement: string, job: string, caseId: string, sourcePath: string, sourceSha: string, testPath: string,
    testSha: string, node: string, outputSha: string)

  /** What the catalog expects of it: everything but the digest of the output. */
  datatype Binding = Binding(
    requirement: string, job: string, caseId: string, sourcePath: string, sourceSha: string, testPath: string,
    testSha: string, node: string)

  predicate Matches(b: Binding, o: Observation) {
    && o.requirement == b.requirement && o.job == b.job && o.caseId == b.caseId && o.sourcePath == b.sourcePath
    && o.sourceSha == b.sourceSha && o.testPath == b.testPath && o.testSha == b.testSha && o.node == b.node
  }

  datatype Codec = Codec(json: Observation -> Bytes, read: Bytes -> Option<Observation>)

  ghost predicate Faithful(codec: Codec) {
    forall o :: NoBreak(codec.json(o)) && codec.read(codec.json(o) + "\n") == Some(o)
  }

  // ----- appending and recovering -----

  function Marker(codec: Codec, o: Observation): Bytes { MARKER + codec.json(o) + "\n" }

  function Markers(codec: Codec, os: seq<Observation>): seq<Bytes> {
    seq(|os|, i requires 0 <= i < |os| => Marker(codec, os[i]))
  }

  /** The log of a job: the output of its child, its last line ended if there is anything to append, and the records. */
  function Appended(codec: Codec, child: Bytes, os: seq<Observation>): Bytes {
    if os == [] then child else Finished(child) + Concat(Markers(codec, os))
  }

  /** A child may not print a record of its own. */
  predicate ParentOwned(child: Bytes) { Free(Lines(child), MARKER) }

  function Recovered(codec: Codec, lines: seq<Bytes>): Option<seq<Observation>>
    requires forall i :: 0 <= i < |lines| ==> StartsWith(lines[i], MARKER)
  {
    if lines == [] then Some([])
    else
      assert StartsWith(lines[0], MARKER);
      match codec.read(lines[0][|MARKER|..])
      case None => None
      case Some(o) => match Recovered(codec, lines[1..]) case None => None case Some(os) => Some([o] + os)
  }

  function Records(output: Bytes): (r: seq<Bytes>)
    ensures forall i :: 0 <= i < |r| ==> StartsWith(r[i], MARKER)
  {
    AllMarked(Lines(output));
    WithPrefix(Lines(output), MARKER)
  }

  lemma {:induction false} AllMarked(lines: seq<Bytes>)
    ensures forall i :: 0 <= i < |WithPrefix(lines, MARKER)| ==> StartsWith(WithPrefix(lines, MARKER)[i], MARKER)
  {
    if lines != [] {
      AllMarked(lines[1..]);
    }
  }

  /** The check of a log against the bindings of its job, in their order. */
  predicate OutputVerified(codec: Codec, output: Bytes, ordered: seq<Binding>) {
    var records := Records(output);
    && |records| == |ordered|
    && Recovered(codec, records).Some?
    && var os := Recovered(codec, records).value;
    && |os| == |ordered|
    && forall i :: 0 <= i < |ordered| ==> Matches(ordered[i], os[i])
  }

  lemma MarkerReads(codec: Codec, o: Observation)
    requires Faithful(codec)
    ensures var line := Marker(codec, o);
            && StartsWith(line, MARKER) && codec.read(line[|MARKER|..]) == Some(o)
            && line != "" && Complete(line) && NoBreak(line[..|line| - 1])
  {
    var line, json := Marker(codec, o), codec.json(o);
    assert line == MARKER + (json + "\n") && line[|MARKER|..] == json + "\n";
    assert line[..|line| - 1] == MARKER + json;
  }

  lemma {:induction false} MarkersRead(codec: Codec, os: seq<Observation>)
    requires Faithful(codec)
    ensures var lines := Markers(codec, os);
            && WholeLines(lines) && (forall i :: 0 <= i < |lines| ==> StartsWith(lines[i], MARKER))
            && Recovered(codec, lines) == Some(os)
  {
    var lines := Markers(codec, os);
    forall i | 0 <= i < |lines|
      ensures StartsWith(lines[i], MARKER) && lines[i] != "" && Complete(lines[i])
      ensures NoBreak(lines[i][..|lines[i]| - 1])
    {
      MarkerReads(codec, os[i]);
    }
    if os != [] {
      MarkerReads(codec, os[0]);
      MarkersRead(codec, os[1..]);
      assert lines[1..] == Markers(codec, os[1..]);
      assert os == [os[0]] + os[1..];
    }
  }

  lemma MarkerIsOneLine()
    ensures NoBreak(MARKER)
  {}

  /** Whatever the child printed, as long as it printed no record itself, the appended records are recovered exactly and
      in order, even when the child's last line was unfinished. */
  lemma AppendedAreRecovered(codec: Codec, child: Bytes, os: seq<Observation>)
    requires Faithful(codec) && ParentOwned(child)
    ensures Records(Appended(codec, child, os)) == Markers(codec, os)
    ensures Recovered(codec, Records(Appended(codec, child, os))) == Some(os)
  {
    hide Lines, Free;
    var lines := Markers(codec, os);
    MarkersRead(codec, os);
    MarkerIsOneLine();
    if os == [] {
      FreeHasNone(Lines(child), MARKER);
      assert lines == [];
    } else {
      FinishedComplete(child);
      FinishedFree(child, MARKER);
      LinesJoin(Finished(child), Concat(lines));
      LinesOfConcat(lines);
      PrefixJoin(Lines(Finished(child)), lines, MARKER);
      FreeHasNone(Lines(Finished(child)), MARKER);
      AllHave(lines, MARKER);
      assert [] + lines == lines;
    }
  }

  /** So a log passes its check exactly when the parent observed every bound case, one each, in order. */
  lemma AppendedVerifiesIff(codec: Codec, child: Bytes, os: seq<Observation>, ordered: seq<Binding>)
    requires Faithful(codec) && ParentOwned(child)
    ensures OutputVerified(codec, Appended(codec, child, os), ordered)
            <==> |os| == |ordered| && forall i :: 0 <= i < |ordered| ==> Matches(ordered[i], os[i])
  {
    AppendedAreRecovered(codec, child, os);
  }

  /** Why records must be the parent's: a child that printed one would have it counted. */
  lemma ForgedRecordIsSeen(codec: Codec, o: Observation)
    requires Faithful(codec)
    ensures !ParentOwned(Marker(codec, o)) && Recovered(codec, Records(Marker(codec, o))) == Some([o])
  {
    MarkersRead(codec, [o]);
    var lines := Markers(codec, [o]);
    assert lines == [Marker(codec, o)] && Concat(lines[1..]) == "";
    assert Concat(lines) == Marker(codec, o);
    LinesOfConcat(lines);
    AllHave(lines, MARKER);
    assert StartsWith(Lines(Marker(codec, o))[0], MARKER);
  }

  // ----- counts -----

  /** A counting pattern: a boundary, text, digits, text, and blank space, one of `stops` or the end of the output.
      Without a boundary or an end the pattern is only text and digits. */
  datatype Pattern = Pattern(boundary: bool, before: string, afters: seq<string>, ended: bool, stops: string)

  function Digits(s: Bytes, i: nat): (n: nat)
    requires i <= |s|
    ensures i + n <= |s| && (forall k :: i <= k < i + n ==> N.IsDigit(s[k])) && (i + n < |s| ==> !N.IsDigit(s[i + n]))
    decreases |s| - i
  {
    if i == |s| || !N.IsDigit(s[i]) then 0 else 1 + Digits(s, i + 1)
  }

  predicate At(s: Bytes, i: nat, text: string) { i + |text| <= |s| && s[i..i + |text|] == text }

  /** Where a match ends whose digits ended at `i`. */
  function EndOf(p: Pattern, afters: seq<string>, s: Bytes, i: nat): (r: Option<nat>)
    requires i <= |s|
    ensures r.Some? ==> i <= r.value <= |s|
  {
    if afters == [] then None
    else
      var j := i + |afters[0]|;
      if At(s, i, afters[0]) && !p.ended then Some(j)
      else if At(s, i, afters[0]) && j < |s| && (T.Whitespace(s[j]) || s[j] in p.stops) then Some(j + 1)
      else if At(s, i, afters[0]) && j == |s| then Some(j)
      else EndOf(p, afters[1..], s, i)
  }

  /** A match whose first text starts at `i`: where it ends, and the number in it. */
  function Body(p: Pattern, s: Bytes, i: nat): (r: Option<(nat, nat)>)
    requires i <= |s|
    ensures r.Some? ==> i < r.value.0 <= |s|
  {
    if !At(s, i, p.before) then None
    else
      var d := i + |p.before|;
      var n := Digits(s, d);
      if n == 0 then None
      else match EndOf(p, p.afters, s, d + n)
        case None => None
        case Some(e) => Some((e, N.ParseDecimal(s[d..d + n])))
  }

  /** A match that starts at `i`. */
  function MatchAt(p: Pattern, s: Bytes, i: nat): (r: Option<(nat, nat)>)
    requires i < |s|
    ensures r.Some? ==> i < r.value.0 <= |s|
  {
    if !p.boundary then Body(p, s, i)
    else if i == 0 && Body(p, s, 0).Some? then Body(p, s, 0)
    else if T.Whitespace(s[i]) then Body(p, s, i + 1)
    else None
  }

  /** The sum over the matches found one after another, each search starting where the last match ended. */
  function CountFrom(p: Pattern, s: Bytes, i: nat): nat
    requires i <= |s|
    decreases |s| - i
  {
    if i == |s| then 0
    else match MatchAt(p, s, i) case None => CountFrom(p, s, i + 1) case Some((e, n)) => n + CountFrom(p, s, e)
  }

  function Count(p: Pattern, s: Bytes): nat { CountFrom(p, s, 0) }

  function Total(ps: seq<Pattern>, s: Bytes): nat {
    if ps == [] then 0 else Count(ps[0], s) + Total(ps[1..], s)
  }

  predicate PlainText(text: string) { forall c :: c in text ==> !N.IsDigit(c) && c != '\n' }

  predicate EndsLine(s: Bytes) { s != "" && s[|s| - 1] == '\n' }

  // ----- before a line end nothing depends on what follows it -----

  lemma NotAcross(s: Bytes, i: nat, text: string, k: nat)
    requires At(s, i, text) && i <= k < i + |text| && PlainText(text)
    ensures s[k] != '\n'
  {
    assert s[i..i + |text|][k - i] == s[k];
    assert text[k - i] in text;
  }

  lemma AtJoin(a: Bytes, b: Bytes, i: nat, text: string)
    requires EndsLine(a) && i < |a| && PlainText(text)
    ensures At(a + b, i, text) == At(a, i, text) && (At(a, i, text) ==> i + |text| < |a|)
  {
    var whole := a + b;
    if i + |text| < |a| {
      assert whole[i..i + |text|] == a[i..i + |text|];
    } else if At(whole, i, text) {
      NotAcross(whole, i, text, |a| - 1);
    } else if At(a, i, text) {
      NotAcross(a, i, text, |a| - 1);
    }
  }

  lemma {:induction false} DigitsJoin(a: Bytes, b: Bytes, i: nat)
    requires EndsLine(a) && i < |a|
    ensures Digits(a + b, i) == Digits(a, i) && i + Digits(a, i) < |a|
    decreases |a| - i
  {
    assert (a + b)[i] == a[i];
    if N.IsDigit(a[i]) {
      DigitsJoin(a, b, i + 1);
    }
  }

  lemma {:induction false} EndJoin(p: Pattern, afters: seq<string>, a: Bytes, b: Bytes, i: nat)
    requires EndsLine(a) && i < |a| && forall k :: 0 <= k < |afters| ==> PlainText(afters[k])
    ensures EndOf(p, afters, a + b, i) == EndOf(p, afters, a, i)
  {
    hide At, PlainText;
    if afters != [] {
      AtJoin(a, b, i, afters[0]);
      EndJoin(p, afters[1..], a, b, i);
    }
  }

  predicate PlainPattern(p: Pattern) {
    PlainText(p.before) && forall k :: 0 <= k < |p.afters| ==> PlainText(p.afters[k])
  }

  lemma BodyJoin(p: Pattern, a: Bytes, b: Bytes, i: nat)
    requires EndsLine(a) && i < |a| && PlainPattern(p)
    ensures Body(p, a + b, i) == Body(p, a, i)
  {
    hide At, PlainText, EndOf;
    AtJoin(a, b, i, p.before);
    if At(a, i, p.before) {
      var d := i + |p.before|;
      DigitsJoin(a, b, d);
      EndJoin(p, p.afters, a, b, d + Digits(a, d));
      assert (a + b)[d..d + Digits(a, d)] == a[d..d + Digits(a, d)];
    }
  }

  lemma NothingAtEnd(p: Pattern, s: Bytes)
    ensures Body(p, s, |s|).None?
  {}

  lemma AtShift(a: Bytes, b: Bytes, i: nat, text: string)
    requires i <= |b|
    ensures At(a + b, |a| + i, text) == At(b, i, text)
  {
    if i + |text| <= |b| {
      assert (a + b)[|a| + i..|a| + i + |text|] == b[i..i + |text|];
    }
  }

  lemma {:induction false} DigitsShift(a: Bytes, b: Bytes, i: nat)
    requires i <= |b|
    ensures Digits(a + b, |a| + i) == Digits(b, i)
    decreases |b| - i
  {
    if i < |b| && N.IsDigit(b[i]) {
      DigitsShift(a, b, i + 1);
    }
  }

  /** The same end, counted from the start of a longer text. */
  function Moved(n: nat, end: Option<nat>): Option<nat> {
    match end case None => None case Some(e) => Some(n + e)
  }

  lemma {:induction false} EndShift(p: Pattern, afters: seq<string>, a: Bytes, b: Bytes, i: nat)
    requires i <= |b|
    ensures EndOf(p, afters, a + b, |a| + i) == Moved(|a|, EndOf(p, afters, b, i))
  {
    hide At;
    if afters != [] {
      AtShift(a, b, i, afters[0]);
      AtFits(b, i, afters[0]);
      var j := i + |afters[0]|;
      assert j < |b| ==> (a + b)[|a| + j] == b[j];
      EndShift(p, afters[1..], a, b, i);
    }
  }

  lemma AtFits(s: Bytes, i: nat, text: string)
    ensures At(s, i, text) ==> i + |text| <= |s|
  {}

  function MovedMatch(n: nat, m: Option<(nat, nat)>): Option<(nat, nat)> {
    match m case None => None case Some((e, number)) => Some((n + e, number))
  }

  lemma BodyShift(p: Pattern, a: Bytes, b: Bytes, i: nat)
    requires i <= |b|
    ensures Body(p, a + b, |a| + i) == MovedMatch(|a|, Body(p, b, i))
  {
    hide At, EndOf;
    AtShift(a, b, i, p.before);
    AtFits(b, i, p.before);
    if At(b, i, p.before) {
      var d := i + |p.before|;
      var n := Digits(b, d);
      DigitsShift(a, b, d);
      EndShift(p, p.afters, a, b, d + n);
      assert (a + b)[|a| + d..|a| + d + n] == b[d..d + n];
    }
  }

  /** No match begins at the very start of this text, whatever stands before it. */
  predicate Apart(p: Pattern, s: Bytes) { Body(p, s, 0).None? }

  lemma MatchShift(p: Pattern, a: Bytes, b: Bytes, i: nat)
    requires i < |b| && Apart(p, b)
    ensures MatchAt(p, a + b, |a| + i) == MovedMatch(|a|, MatchAt(p, b, i))
  {
    hide Body;
    assert (a + b)[|a| + i] == b[i];
    BodyShift(p, a, b, i);
    BodyShift(p, a, b, i + 1);
    BodyShift(p, a, b, 0);
  }

  lemma {:induction false} CountShift(p: Pattern, a: Bytes, b: Bytes, i: nat)
    requires i <= |b| && Apart(p, b)
    ensures CountFrom(p, a + b, |a| + i) == CountFrom(p, b, i)
    decreases |b| - i
  {
    hide MatchAt, Apart;
    if i < |b| {
      MatchShift(p, a, b, i);
      var m := MatchAt(p, b, i);
      CountShift(p, a, b, if m.Some? then m.value.0 else i + 1);
    }
  }

  lemma MatchJoin(p: Pattern, a: Bytes, b: Bytes, i: nat)
    requires EndsLine(a) && PlainPattern(p) && Apart(p, b) && i < |a|
    ensures MatchAt(p, a + b, i) == MatchAt(p, a, i)
  {
    hide Body, PlainPattern;
    assert (a + b)[i] == a[i];
    BodyJoin(p, a, b, i);
    if i + 1 < |a| {
      BodyJoin(p, a, b, i + 1);
    } else {
      BodyShift(p, a, b, 0);
      NothingAtEnd(p, a);
    }
  }

  lemma {:induction false} CountJoin(p: Pattern, a: Bytes, b: Bytes, i: nat)
    requires EndsLine(a) && PlainPattern(p) && Apart(p, b) && i <= |a|
    ensures CountFrom(p, a + b, i) == CountFrom(p, a, i) + Count(p, b)
    decreases |a| - i
  {
    hide MatchAt, PlainPattern, Apart;
    if i == |a| {
      CountShift(p, a, b, 0);
    } else {
      MatchJoin(p, a, b, i);
      var m := MatchAt(p, a, i);
      CountJoin(p, a, b, if m.Some? then m.value.0 else i + 1);
    }
  }

  /** Across the end of a line counts add up, when no match begins right after it. */
  lemma CountAppended(p: Pattern, a: Bytes, b: Bytes)
    requires Complete(a) && PlainPattern(p) && Apart(p, b)
    ensures Count(p, a + b) == Count(p, a) + Count(p, b)
  {
    if a == "" {
      assert a + b == b;
    } else {
      CountJoin(p, a, b, 0);
    }
  }

  // ----- ending the last line -----

  predicate Unfinished(s: Bytes) { s != "" && s[|s| - 1] != '\n' }

  lemma AtFinish(s: Bytes, i: nat, text: string)
    requires i <= |s| && PlainText(text)
    ensures At(s + "\n", i, text) == At(s, i, text)
  {
    var whole := s + "\n";
    if i + |text| <= |s| {
      assert whole[i..i + |text|] == s[i..i + |text|];
    } else if At(whole, i, text) {
      NotAcross(whole, i, text, |s|);
    }
  }

  lemma {:induction false} DigitsFinish(s: Bytes, i: nat)
    requires i <= |s|
    ensures Digits(s + "\n", i) == Digits(s, i)
    decreases |s| - i
  {
    if i < |s| && N.IsDigit(s[i]) {
      DigitsFinish(s, i + 1);
    }
  }

  /** The same end, or the end of the text and the end of its now finished line. */
  predicate SameEnd(s: Bytes, x: nat, y: nat) { x == y || (x == |s| && y == |s| + 1) }

  lemma {:induction false} EndFinish(p: Pattern, afters: seq<string>, s: Bytes, i: nat)
    requires i <= |s| && forall k :: 0 <= k < |afters| ==> PlainText(afters[k])
    ensures var x, y := EndOf(p, afters, s, i), EndOf(p, afters, s + "\n", i);
            x.Some? == y.Some? && (x.Some? ==> SameEnd(s, x.value, y.value))
  {
    hide At, PlainText;
    if afters != [] {
      AtFinish(s, i, afters[0]);
      AtFits(s, i, afters[0]);
      EndFinish(p, afters[1..], s, i);
    }
  }

  lemma BodyFinish(p: Pattern, s: Bytes, i: nat)
    requires i <= |s| && PlainPattern(p)
    ensures var x, y := Body(p, s, i), Body(p, s + "\n", i);
            x.Some? == y.Some? && (x.Some? ==> SameEnd(s, x.value.0, y.value.0) && x.value.1 == y.value.1)
  {
    hide At, PlainText, EndOf, Digits, N.ParseDecimal;
    AtFinish(s, i, p.before);
    AtFits(s, i, p.before);
    if At(s, i, p.before) {
      var d := i + |p.before|;
      DigitsFinish(s, d);
      EndFinish(p, p.afters, s, d + Digits(s, d));
      assert (s + "\n")[d..d + Digits(s, d)] == s[d..d + Digits(s, d)];
    }
  }

  lemma {:induction false} CountFinish(p: Pattern, s: Bytes, i: nat)
    requires Unfinished(s) && PlainPattern(p) && i <= |s|
    ensures CountFrom(p, s + "\n", i) == CountFrom(p, s, i)
    decreases |s| - i
  {
    hide Body, PlainPattern;
    NothingAtEnd(p, s + "\n");
    NothingAtEnd(p, s);
    BodyFinish(p, s, i);
    if i < |s| {
      assert (s + "\n")[i] == s[i];
      BodyFinish(p, s, i + 1);
      var m := MatchAt(p, s, i);
      CountFinish(p, s, if m.Some? then m.value.0 else i + 1);
      CountFinish(p, s, |s|);
    }
  }

  // ----- the theorem -----

  const PYTEST: seq<Pattern> := [
    Pattern(true, "", [" passed"], true, ","),
    Pattern(true, "Ran ", [" tests", " test"], true, "."),
    Pattern(false, "CHECKS_EXECUTED=", [""], false, "")]

  lemma PytestPatternsArePlain()
    ensures forall i :: 0 <= i < |PYTEST| ==> PlainPattern(PYTEST[i])
  {
    assert PlainText(" passed") && PlainText(" tests") && PlainText(" test") && PlainText("") && PlainText("Ran ");
    assert PlainText("CHECKS_EXECUTED=");
  }

  /** No match of this pattern begins where a record does. */
  ghost predicate SkipsRecords(p: Pattern) { forall text :: Apart(p, MARKER + text) }

  lemma AtReads(s: Bytes, i: nat, text: string, k: nat)
    requires At(s, i, text) && k < |text|
    ensures s[i + k] == text[k]
  {
    assert s[i..i + |text|][k] == s[i + k];
  }

  lemma PytestPatternsSkipRecords()
    ensures forall i :: 0 <= i < |PYTEST| ==> SkipsRecords(PYTEST[i])
  {
    forall text
      ensures Apart(PYTEST[0], MARKER + text) && Apart(PYTEST[1], MARKER + text) && Apart(PYTEST[2], MARKER + text)
    {
      var s := MARKER + text;
      assert s[0] == 'C' && s[1] == 'I';
      if At(s, 0, PYTEST[1].before) {
        AtReads(s, 0, PYTEST[1].before, 0);
      }
      if At(s, 0, PYTEST[2].before) {
        AtReads(s, 0, PYTEST[2].before, 1);
      }
    }
  }

  lemma RecordsApart(p: Pattern, codec: Codec, os: seq<Observation>)
    requires os != [] && SkipsRecords(p)
    ensures Apart(p, Concat(Markers(codec, os)))
  {
    hide Apart;
    var lines := Markers(codec, os);
    var text := codec.json(os[0]) + "\n" + Concat(lines[1..]);
    assert Concat(lines) == MARKER + text;
  }

  lemma NothingToCount(p: Pattern)
    ensures Count(p, "") == 0
  {}

  /** The count of a whole log is that of the child's output and that of the appended records on their own. */
  lemma CountOfAppended(p: Pattern, codec: Codec, child: Bytes, os: seq<Observation>)
    requires PlainPattern(p) && SkipsRecords(p)
    ensures Count(p, Appended(codec, child, os)) == Count(p, child) + Count(p, Concat(Markers(codec, os)))
  {
    hide PlainPattern, SkipsRecords, Apart;
    if os == [] {
      NothingToCount(p);
      assert Concat(Markers(codec, os)) == "";
    } else {
      if Unfinished(child) {
        CountFinish(p, child, 0);
      }
      FinishedComplete(child);
      RecordsApart(p, codec, os);
      CountAppended(p, Finished(child), Concat(Markers(codec, os)));
    }
  }

  lemma {:induction false} TotalOfAppended(ps: seq<Pattern>, codec: Codec, child: Bytes, os: seq<Observation>)
    requires forall i :: 0 <= i < |ps| ==> PlainPattern(ps[i]) && SkipsRecords(ps[i])
    ensures Total(ps, Appended(codec, child, os)) == Total(ps, child) + Total(ps, Concat(Markers(codec, os)))
  {
    hide PlainPattern, SkipsRecords, Count;
    if ps != [] {
      CountOfAppended(ps[0], codec, child, os);
      TotalOfAppended(ps[1..], codec, child, os);
    }
  }

  /** The count taken when a job ran and the count derived again from its whole log are equal exactly when the appended
      records, read as a log of their own, count nothing. */
  lemma CountIsRederivedIff(codec: Codec, child: Bytes, os: seq<Observation>)
    ensures Total(PYTEST, Appended(codec, child, os)) == Total(PYTEST, child)
            <==> Total(PYTEST, Concat(Markers(codec, os))) == 0
  {
    hide Total;
    PytestPatternsArePlain();
    PytestPatternsSkipRecords();
    TotalOfAppended(PYTEST, codec, child, os);
  }
}
