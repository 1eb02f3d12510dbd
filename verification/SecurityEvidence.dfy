/** The SECURITY evidence producer and its consumers (security_gate.py:372-486; ci_contract.py:708-790, 1670-1727). */
module SecurityEvidence {
  import opened EvidenceText

  const CASE_MARKER := "SECURITY_CASE="
  const EVIDENCE_MARKER := "SECURITY_EVIDENCE="

  datatype Result<+T> = Ok(value: T) | Refused

  type Sha = string

  datatype Binding = Binding(threat: string, caseId: string, source: Sha, test: Sha, denial: Sha, postcondition: Sha)

  datatype Mapping = Mapping(threat: string, count: nat, root: Sha)

  datatype Catalog = Catalog(threats: seq<string>, bindings: seq<Binding>)

  /** How records are written and read: one JSON document on one line. `counts` finds text that reads as a count. */
  datatype Codec = Codec(
    caseJson: Binding -> Bytes, readCase: Bytes -> Option<Binding>,
    mappingJson: seq<Mapping> -> Bytes, readMappings: Bytes -> Option<seq<Mapping>>,
    sha: Bytes -> Sha, counts: Bytes -> bool)

  /** Reading undoes writing, whatever blank space ends the line; no document contains a line break; and nothing is
      found in nothing. */
  ghost predicate Faithful(codec: Codec) {
    && (forall b :: NoBreak(codec.caseJson(b)) && codec.readCase(codec.caseJson(b) + "\n") == Some(b))
    && (forall ms :: NoBreak(codec.mappingJson(ms)) && codec.readMappings(codec.mappingJson(ms) + "\n") == Some(ms))
    && !codec.counts("")
  }

  // ----- the producer -----

  function CaseLine(codec: Codec, b: Binding): Bytes { CASE_MARKER + codec.caseJson(b) + "\n" }

  function CaseLines(codec: Codec, bs: seq<Binding>): seq<Bytes> {
    seq(|bs|, i requires 0 <= i < |bs| => CaseLine(codec, bs[i]))
  }

  function Claimed(codec: Codec, bs: seq<Binding>): seq<Mapping> {
    seq(|bs|, i requires 0 <= i < |bs| => Mapping(bs[i].threat, 1, codec.sha(CaseLine(codec, bs[i]))))
  }

  function EvidenceLine(codec: Codec, bs: seq<Binding>): Bytes {
    EVIDENCE_MARKER + codec.mappingJson(Claimed(codec, bs)) + "\n"
  }

  /** What a successful run writes. */
  function Produced(codec: Codec, bs: seq<Binding>): Bytes {
    Concat(CaseLines(codec, bs) + [EvidenceLine(codec, bs)])
  }

  /** What one selected test did: the source binding before and after it, and its process. `reason` is the text of the
      error that kept a binding or the output from being taken. */
  datatype Trial = Trial(
    before: Option<Binding>, output: Bytes, sane: bool, failure: Option<Bytes>, returnCode: int, passedOnce: bool,
    after: Option<Binding>, inTime: bool, reason: Bytes)

  const TIMED_OUT: Bytes := "SECURITY gate timed out"
  const SOURCE_CHANGED: Bytes := "SECURITY case source changed during execution"

  predicate Unreserved(output: Bytes) { Free(Lines(output), CASE_MARKER) && Free(Lines(output), EVIDENCE_MARKER) }

  /** The only outcome of a trial that lets the gate go on. */
  predicate Passed(t: Trial) {
    && t.inTime && t.before.Some? && t.sane && Unreserved(t.output) && t.failure.None? && t.returnCode == 0
    && t.passedOnce && t.after == t.before
  }

  /** What is written of the trial that ends the gate. */
  function Complaint(t: Trial): Bytes {
    if !t.inTime then Finished(TIMED_OUT)
    else if t.before.None? || !t.sane || !Unreserved(t.output) then Finished(t.reason)
    else if t.failure.Some? then Finished(t.output) + Finished(t.failure.value)
    else if t.returnCode != 0 || !t.passedOnce then Finished(t.output)
    else Finished(if t.after.None? then t.reason else SOURCE_CHANGED)
  }

  /** The first trial that did not pass, or the end. */
  function FirstFailed(trials: seq<Trial>): (n: nat)
    ensures n <= |trials| && (forall i :: 0 <= i < n ==> Passed(trials[i])) && (n < |trials| ==> !Passed(trials[n]))
  {
    if trials == [] || !Passed(trials[0]) then 0 else 1 + FirstFailed(trials[1..])
  }

  function BindingsOf(trials: seq<Trial>): seq<Binding>
    requires forall i :: 0 <= i < |trials| ==> Passed(trials[i])
  {
    seq(|trials|, i requires 0 <= i < |trials| && Passed(trials[i]) => trials[i].before.value)
  }

  lemma {:induction false} ConcatSnoc(lines: seq<Bytes>, last: Bytes)
    ensures Concat(lines + [last]) == Concat(lines) + last
  {
    if lines == [] {
      assert [] + [last] == [last] && [last][1..] == [];
      assert Concat([last]) == last + Concat([]) == last;
    } else {
      assert (lines + [last])[1..] == lines[1..] + [last];
      ConcatSnoc(lines[1..], last);
      assert lines[0] + (Concat(lines[1..]) + last) == lines[0] + Concat(lines[1..]) + last;
    }
  }

  /** The stream the gate writes to. */
  class OutputStream {
    var written: Bytes

    constructor ()
      ensures written == ""
    {
      written := "";
    }

    method Write(content: Bytes)
      modifies this
      ensures written == old(written) + Finished(content)
    {
      written := written + content;
      if content != "" && content[|content| - 1] != '\n' {
        written := written + "\n";
      }
    }
  }

  lemma LineIsFinished(text: Bytes)
    ensures Finished(text + "\n") == text + "\n"
  {}

  /** What a whole run of the gate writes: the records of the trials before the first that did not pass, and then either
      the complaint about that one or, if all passed, the mappings. */
  function Emitted(codec: Codec, trials: seq<Trial>): Bytes {
    var n := FirstFailed(trials);
    var bs := BindingsOf(trials[..n]);
    Concat(CaseLines(codec, bs)) + (if n < |trials| then Complaint(trials[n]) else EvidenceLine(codec, bs))
  }

  /** One trial: it passes, or its complaint is written. */
  method Judge(t: Trial, stream: OutputStream) returns (passed: bool)
    modifies stream
    ensures passed == Passed(t)
    ensures stream.written == old(stream.written) + (if passed then "" else Complaint(t))
  {
    hide Unreserved, Finished;
    passed := false;
    if !t.inTime {
      stream.Write(TIMED_OUT);
    } else if t.before.None? || !t.sane || !Unreserved(t.output) {
      stream.Write(t.reason);
    } else if t.failure.Some? {
      stream.Write(t.output);
      stream.Write(t.failure.value);
    } else if t.returnCode != 0 || !t.passedOnce {
      stream.Write(t.output);
    } else if t.after != t.before {
      stream.Write(if t.after.None? then t.reason else SOURCE_CHANGED);
    } else {
      passed := true;
    }
  }

  lemma FailsFirst(trials: seq<Trial>, i: nat)
    requires i <= |trials| && (forall k :: 0 <= k < i ==> Passed(trials[k])) && (i < |trials| ==> !Passed(trials[i]))
    ensures FirstFailed(trials) == i
  {}

  /** The gate succeeds exactly when every selected trial passed, and writes exactly what is specified either way; after
      a success that is the evidence of all trials. */
  method RunSecurityGate(codec: Codec, trials: seq<Trial>, stream: OutputStream) returns (code: int)
    modifies stream
    ensures code == 0 <==> forall i :: 0 <= i < |trials| ==> Passed(trials[i])
    ensures stream.written == old(stream.written) + Emitted(codec, trials)
    ensures code == 0 ==> stream.written == old(stream.written) + Produced(codec, BindingsOf(trials))
  {
    hide Passed, Finished, Complete, Complaint, BindingsOf, CaseLines, CaseLine, EvidenceLine, Concat, Produced;
    ghost var start := stream.written;
    var bindings: seq<Binding> := [];
    var i := 0;
    NoneBound(codec, trials);
    while i < |trials|
      invariant 0 <= i <= |trials|
      invariant forall k :: 0 <= k < i ==> Passed(trials[k])
      invariant bindings == BindingsOf(trials[..i])
      invariant stream.written == start + Concat(CaseLines(codec, bindings))
    {
      var passed := Judge(trials[i], stream);
      if !passed {
        FailsFirst(trials, i);
        return 1;
      }
      OneMoreBound(codec, trials, i);
      var b := trials[i].before.value;
      LineEnds(codec, b);
      stream.Write(CaseLine(codec, b));
      bindings := bindings + [b];
      i := i + 1;
    }
    assert trials[..i] == trials;
    FailsFirst(trials, i);
    ClaimEnds(codec, bindings);
    stream.Write(EvidenceLine(codec, bindings));
    return 0;
  }

  lemma NoneBound(codec: Codec, trials: seq<Trial>)
    ensures BindingsOf(trials[..0]) == [] && Concat(CaseLines(codec, [])) == ""
  {}

  /** One more passed trial adds its binding and its record. */
  lemma OneMoreBound(codec: Codec, trials: seq<Trial>, i: nat)
    requires i < |trials| && forall k :: 0 <= k <= i ==> Passed(trials[k])
    ensures trials[i].before.Some?
    ensures
      var bs, b := BindingsOf(trials[..i]), trials[i].before.value;
      && BindingsOf(trials[..i + 1]) == bs + [b]
      && Concat(CaseLines(codec, bs + [b])) == Concat(CaseLines(codec, bs)) + CaseLine(codec, b)
  {
    hide CaseLine, Concat, Passed;
    PassedIsBound(trials[i]);
    var bs, b := BindingsOf(trials[..i]), trials[i].before.value;
    assert trials[..i + 1] == trials[..i] + [trials[i]];
    assert CaseLines(codec, bs + [b]) == CaseLines(codec, bs) + [CaseLine(codec, b)];
    ConcatSnoc(CaseLines(codec, bs), CaseLine(codec, b));
  }

  lemma LineEnds(codec: Codec, b: Binding)
    ensures Finished(CaseLine(codec, b)) == CaseLine(codec, b)
  {
    LineIsFinished(CASE_MARKER + codec.caseJson(b));
  }

  lemma ClaimEnds(codec: Codec, bs: seq<Binding>)
    ensures Finished(EvidenceLine(codec, bs)) == EvidenceLine(codec, bs)
    ensures Produced(codec, bs) == Concat(CaseLines(codec, bs)) + EvidenceLine(codec, bs)
  {
    LineIsFinished(EVIDENCE_MARKER + codec.mappingJson(Claimed(codec, bs)));
    ConcatSnoc(CaseLines(codec, bs), EvidenceLine(codec, bs));
  }

  lemma PassedIsBound(t: Trial)
    requires Passed(t)
    ensures t.before.Some?
  {}

  // ----- the consumer -----

  function After(line: Bytes, marker: Bytes): Bytes
    requires StartsWith(line, marker)
  {
    line[|marker|..]
  }

  function ReadCases(codec: Codec, lines: seq<Bytes>): Option<seq<Binding>>
    requires forall i :: 0 <= i < |lines| ==> StartsWith(lines[i], CASE_MARKER)
  {
    if lines == [] then Some([])
    else match codec.readCase(After(lines[0], CASE_MARKER))
      case None => None
      case Some(b) => match ReadCases(codec, lines[1..]) case None => None case Some(bs) => Some([b] + bs)
  }

  lemma {:induction false} PrefixedAll(lines: seq<Bytes>, prefix: Bytes)
    ensures forall i :: 0 <= i < |WithPrefix(lines, prefix)| ==> StartsWith(WithPrefix(lines, prefix)[i], prefix)
  {
    if lines != [] {
      PrefixedAll(lines[1..], prefix);
    }
  }

  /** The threats in the order they are first met. */
  function ThreatOrder(bs: seq<Binding>): seq<string> {
    if bs == [] then []
    else
      var front, t := ThreatOrder(bs[..|bs| - 1]), bs[|bs| - 1].threat;
      if t in front then front else front + [t]
  }

  predicate DistinctCases(bs: seq<Binding>) { forall i, j :: 0 <= i < j < |bs| ==> bs[i].caseId != bs[j].caseId }

  predicate DistinctThreats(bs: seq<Binding>) { forall i, j :: 0 <= i < j < |bs| ==> bs[i].threat != bs[j].threat }

  /** The lines, and how many, that belong to one threat. */
  function ThreatText(bs: seq<Binding>, lines: seq<Bytes>, threat: string): Bytes
    requires |bs| == |lines|
  {
    if bs == [] then ""
    else (if bs[0].threat == threat then lines[0] else "") + ThreatText(bs[1..], lines[1..], threat)
  }

  function ThreatCount(bs: seq<Binding>, threat: string): nat {
    if bs == [] then 0 else (if bs[0].threat == threat then 1 else 0) + ThreatCount(bs[1..], threat)
  }

  function Derived(codec: Codec, threats: seq<string>, bs: seq<Binding>, lines: seq<Bytes>): seq<Mapping>
    requires |bs| == |lines|
  {
    seq(|threats|, i requires 0 <= i < |threats| =>
      Mapping(threats[i], ThreatCount(bs, threats[i]), codec.sha(ThreatText(bs, lines, threats[i]))))
  }

  /** Everything but the records. */
  function Unmarked(lines: seq<Bytes>): Bytes {
    if lines == [] then ""
    else (if StartsWith(lines[0], CASE_MARKER) || StartsWith(lines[0], EVIDENCE_MARKER) then "" else lines[0])
         + Unmarked(lines[1..])
  }

  function Consume(codec: Codec, catalog: Catalog, output: Bytes): Result<seq<Mapping>> {
    var lines := Lines(output);
    var claims, caseLines := WithPrefix(lines, EVIDENCE_MARKER), WithPrefix(lines, CASE_MARKER);
    PrefixedAll(lines, EVIDENCE_MARKER);
    PrefixedAll(lines, CASE_MARKER);
    if |claims| != 1 || codec.readMappings(After(claims[0], EVIDENCE_MARKER)).None? then Refused
    else if ReadCases(codec, caseLines).None? then Refused
    else
      var cases := ReadCases(codec, caseLines).value;
      if |cases| != |caseLines| || !DistinctCases(cases) || ThreatOrder(cases) != catalog.threats
         || catalog.bindings == [] || cases != catalog.bindings then Refused
      else
        var derived := Derived(codec, catalog.threats, cases, caseLines);
        if codec.counts(Unmarked(lines)) then Refused
        else if codec.readMappings(After(claims[0], EVIDENCE_MARKER)) != Some(derived) then Refused
        else if exists m :: m in derived && m.count == 0 then Refused
        else Ok(derived)
  }

  /** The count that is derived again from a log when its record is sealed. */
  function Rederived(codec: Codec, output: Bytes): Result<nat> {
    var lines := Lines(output);
    var claims, caseLines := WithPrefix(lines, EVIDENCE_MARKER), WithPrefix(lines, CASE_MARKER);
    PrefixedAll(lines, EVIDENCE_MARKER);
    PrefixedAll(lines, CASE_MARKER);
    if |claims| != 1 || codec.readMappings(After(claims[0], EVIDENCE_MARKER)).None? then Refused
    else if ReadCases(codec, caseLines).None? then Refused
    else
      var cases, ms := ReadCases(codec, caseLines).value, codec.readMappings(After(claims[0], EVIDENCE_MARKER)).value;
      if cases == [] || !DistinctCases(cases) || Total(ms) != |cases| || !DistinctMappings(ms) then Refused
      else Ok(|cases|)
  }

  function Total(ms: seq<Mapping>): nat { if ms == [] then 0 else ms[0].count + Total(ms[1..]) }

  predicate DistinctMappings(ms: seq<Mapping>) { forall i, j :: 0 <= i < j < |ms| ==> ms[i].threat != ms[j].threat }

  // ----- the records are read back -----

  lemma CaseLineReads(codec: Codec, b: Binding)
    requires Faithful(codec)
    ensures var line := CaseLine(codec, b);
            && StartsWith(line, CASE_MARKER) && !StartsWith(line, EVIDENCE_MARKER)
            && codec.readCase(After(line, CASE_MARKER)) == Some(b)
            && line != "" && Complete(line) && NoBreak(line[..|line| - 1])
  {
    var line, json := CaseLine(codec, b), codec.caseJson(b);
    assert line == CASE_MARKER + (json + "\n") && line[|CASE_MARKER|..] == json + "\n";
    assert line[9] == 'C';
    assert line[..|line| - 1] == CASE_MARKER + json;
  }

  lemma EvidenceLineReads(codec: Codec, bs: seq<Binding>)
    requires Faithful(codec)
    ensures var line := EvidenceLine(codec, bs);
            && StartsWith(line, EVIDENCE_MARKER) && !StartsWith(line, CASE_MARKER)
            && codec.readMappings(After(line, EVIDENCE_MARKER)) == Some(Claimed(codec, bs))
            && line != "" && Complete(line) && NoBreak(line[..|line| - 1])
  {
    var line, json := EvidenceLine(codec, bs), codec.mappingJson(Claimed(codec, bs));
    assert line == EVIDENCE_MARKER + (json + "\n") && line[|EVIDENCE_MARKER|..] == json + "\n";
    assert line[9] == 'E';
    assert line[..|line| - 1] == EVIDENCE_MARKER + json;
  }

  lemma {:induction false} CasesRead(codec: Codec, bs: seq<Binding>)
    requires Faithful(codec)
    ensures var lines := CaseLines(codec, bs);
            && (forall i :: 0 <= i < |lines| ==> StartsWith(lines[i], CASE_MARKER))
            && ReadCases(codec, lines) == Some(bs)
  {
    var lines := CaseLines(codec, bs);
    forall i | 0 <= i < |lines|
      ensures StartsWith(lines[i], CASE_MARKER)
    {
      CaseLineReads(codec, bs[i]);
    }
    if bs != [] {
      CaseLineReads(codec, bs[0]);
      CasesRead(codec, bs[1..]);
      assert lines[1..] == CaseLines(codec, bs[1..]);
      assert bs == [bs[0]] + bs[1..];
    }
  }

  /** The lines of a successful run are its records, and the records are told apart by their markers. */
  lemma ProducedLines(codec: Codec, bs: seq<Binding>)
    requires Faithful(codec)
    ensures var all, cases, claim := CaseLines(codec, bs) + [EvidenceLine(codec, bs)], CaseLines(codec, bs),
                                     EvidenceLine(codec, bs);
            && WholeLines(all) && Lines(Produced(codec, bs)) == all
            && WithPrefix(all, CASE_MARKER) == cases && WithPrefix(all, EVIDENCE_MARKER) == [claim]
  {
    var cases, claim := CaseLines(codec, bs), EvidenceLine(codec, bs);
    forall i | 0 <= i < |cases|
      ensures cases[i] != "" && Complete(cases[i]) && NoBreak(cases[i][..|cases[i]| - 1])
      ensures StartsWith(cases[i], CASE_MARKER) && !StartsWith(cases[i], EVIDENCE_MARKER)
    {
      CaseLineReads(codec, bs[i]);
    }
    EvidenceLineReads(codec, bs);
    LinesOfConcat(cases + [claim]);
    AllHave(cases, CASE_MARKER);
    FreeHasNone(cases, EVIDENCE_MARKER);
    FreeHasNone([claim], CASE_MARKER);
    AllHave([claim], EVIDENCE_MARKER);
    PrefixJoin(cases, [claim], CASE_MARKER);
    PrefixJoin(cases, [claim], EVIDENCE_MARKER);
    assert cases + [] == cases && [] + [claim] == [claim];
  }

  lemma {:induction false} NothingUnmarked(lines: seq<Bytes>)
    requires forall i :: 0 <= i < |lines| ==> StartsWith(lines[i], CASE_MARKER) || StartsWith(lines[i], EVIDENCE_MARKER)
    ensures Unmarked(lines) == ""
  {
    if lines != [] {
      NothingUnmarked(lines[1..]);
    }
  }

  // ----- the derived mappings are the claimed ones -----

  lemma {:induction false} OrderOfDistinct(bs: seq<Binding>)
    requires DistinctThreats(bs)
    ensures |ThreatOrder(bs)| == |bs| && forall i :: 0 <= i < |bs| ==> ThreatOrder(bs)[i] == bs[i].threat
  {
    if bs != [] {
      OrderOfDistinct(bs[..|bs| - 1]);
    }
  }

  lemma {:induction false} AbsentThreat(bs: seq<Binding>, lines: seq<Bytes>, threat: string)
    requires |bs| == |lines| && forall i :: 0 <= i < |bs| ==> bs[i].threat != threat
    ensures ThreatText(bs, lines, threat) == "" && ThreatCount(bs, threat) == 0
  {
    if bs != [] {
      AbsentThreat(bs[1..], lines[1..], threat);
    }
  }

  lemma {:induction false} OneOfThreat(bs: seq<Binding>, lines: seq<Bytes>, i: nat)
    requires |bs| == |lines| && i < |bs| && DistinctThreats(bs)
    ensures ThreatText(bs, lines, bs[i].threat) == lines[i] && ThreatCount(bs, bs[i].threat) == 1
  {
    if i == 0 {
      AbsentThreat(bs[1..], lines[1..], bs[0].threat);
    } else {
      OneOfThreat(bs[1..], lines[1..], i - 1);
    }
  }

  /** A threat met twice is listed once. */
  lemma {:induction false} OrderHasAll(bs: seq<Binding>)
    ensures |ThreatOrder(bs)| <= |bs| && (|ThreatOrder(bs)| == |bs| ==> DistinctThreats(bs))
    ensures forall t :: t in ThreatOrder(bs) <==> exists i :: 0 <= i < |bs| && bs[i].threat == t
  {
    if bs != [] {
      var front := bs[..|bs| - 1];
      OrderHasAll(front);
      assert forall i :: 0 <= i < |front| ==> front[i] == bs[i];
    }
  }

  lemma DerivedAreClaimedIff(codec: Codec, bs: seq<Binding>)
    ensures Derived(codec, ThreatOrder(bs), bs, CaseLines(codec, bs)) == Claimed(codec, bs) <==> DistinctThreats(bs)
  {
    if DistinctThreats(bs) {
      OrderOfDistinct(bs);
      forall i | 0 <= i < |bs|
        ensures Derived(codec, ThreatOrder(bs), bs, CaseLines(codec, bs))[i] == Claimed(codec, bs)[i]
      {
        OneOfThreat(bs, CaseLines(codec, bs), i);
      }
    } else {
      OrderHasAll(bs);
      assert |Derived(codec, ThreatOrder(bs), bs, CaseLines(codec, bs))| != |Claimed(codec, bs)|;
    }
  }

  /** What a successful run writes is accepted by the consumer exactly when the catalog lists those bindings and their
      threats, there is at least one, no two cases share a name and no two share a threat: two cases of one threat are
      refused, because the producer claims one mapping a case. What is accepted is one mapping a threat, each root the
      digest of that threat's one record. */
  lemma ProducedIsAcceptedIff(codec: Codec, catalog: Catalog, bs: seq<Binding>)
    requires Faithful(codec)
    ensures Consume(codec, catalog, Produced(codec, bs)).Ok?
            <==> catalog.bindings == bs && catalog.threats == ThreatOrder(bs) && bs != [] && DistinctThreats(bs)
                 && DistinctCases(bs)
    ensures Consume(codec, catalog, Produced(codec, bs)).Ok? ==>
              Consume(codec, catalog, Produced(codec, bs)) == Ok(Claimed(codec, bs))
  {
    hide WholeLines, Lines, DistinctThreats;
    var all := CaseLines(codec, bs) + [EvidenceLine(codec, bs)];
    ProducedLines(codec, bs);
    CasesRead(codec, bs);
    EvidenceLineReads(codec, bs);
    DerivedAreClaimedIff(codec, bs);
    forall i | 0 <= i < |all|
      ensures StartsWith(all[i], CASE_MARKER) || StartsWith(all[i], EVIDENCE_MARKER)
    {
      if i < |bs| { CaseLineReads(codec, bs[i]); }
    }
    NothingUnmarked(all);
  }

  lemma {:induction false} ClaimedTotal(codec: Codec, bs: seq<Binding>)
    ensures Total(Claimed(codec, bs)) == |bs|
  {
    if bs != [] {
      assert Claimed(codec, bs)[1..] == Claimed(codec, bs[1..]);
      ClaimedTotal(codec, bs[1..]);
    }
  }

  lemma ClaimedDistinct(codec: Codec, bs: seq<Binding>)
    ensures DistinctMappings(Claimed(codec, bs)) <==> DistinctThreats(bs)
  {
    assert forall i :: 0 <= i < |bs| ==> Claimed(codec, bs)[i].threat == bs[i].threat;
  }

  /** The count sealed with a record is derived again later, even from a log to which its parent has appended records of
      its own, exactly when there is a case, and no name or threat twice. */
  lemma CountIsRederived(codec: Codec, bs: seq<Binding>, appended: seq<Bytes>)
    requires Faithful(codec)
    requires WholeLines(appended) && Free(appended, CASE_MARKER) && Free(appended, EVIDENCE_MARKER)
    ensures Rederived(codec, Produced(codec, bs) + Concat(appended)) == Ok(|bs|)
            <==> bs != [] && DistinctThreats(bs) && DistinctCases(bs)
    ensures Total(Claimed(codec, bs)) == |bs|
  {
    hide WholeLines, Lines, Free, Complete;
    var all := CaseLines(codec, bs) + [EvidenceLine(codec, bs)];
    ProducedLines(codec, bs);
    ConcatComplete(all);
    LinesJoin(Produced(codec, bs), Concat(appended));
    LinesOfConcat(appended);
    PrefixJoin(all, appended, CASE_MARKER);
    PrefixJoin(all, appended, EVIDENCE_MARKER);
    FreeHasNone(appended, CASE_MARKER);
    FreeHasNone(appended, EVIDENCE_MARKER);
    assert CaseLines(codec, bs) + [] == CaseLines(codec, bs);
    assert [EvidenceLine(codec, bs)] + [] == [EvidenceLine(codec, bs)];
    CasesRead(codec, bs);
    EvidenceLineReads(codec, bs);
    ClaimedTotal(codec, bs);
    ClaimedDistinct(codec, bs);
  }
}
