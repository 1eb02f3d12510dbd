/** The record sections of a collector's output and how they are read (deployment_capture.py:730-819). The text is what
    the bytes of a section decode to. */
module CaptureText {
  import opened LengthFraming
  import opened Numerals
  import opened DeploymentModels
  import opened DeploymentContract

  /** How numbers and instants are read; a spelling of an instant is read only if it is the one it is written with. */
  datatype Reader = Reader(notation: Notation, number: string -> Option<int>, instant: string -> Option<Instant>)

  ghost predicate Faithful(reader: Reader) {
    && (forall n :: reader.number(Text(n)) == Some(n))
    && (forall s, t :: reader.instant(s) == Some(t) <==> s == reader.notation.stamp(t))
  }

  // ----- splitting -----

  function Parts(s: string, c: char): (r: seq<string>)
    ensures r != []
  {
    if s == "" then [""]
    else
      var others := Parts(s[1..], c);
      if s[0] == c then [""] + others else [[s[0]] + others[0]] + others[1..]
  }

  function Joined(parts: seq<string>, c: char): string
    requires parts != []
  {
    if |parts| == 1 then parts[0] else parts[0] + [c] + Joined(parts[1..], c)
  }

  predicate Without(c: char, parts: seq<string>) { forall i :: 0 <= i < |parts| ==> c !in parts[i] }

  /** Every character of a part but the separator is one of the whole. */
  lemma {:induction false} PartsHold(s: string, c: char, d: char)
    ensures Without(c, Parts(s, c))
    ensures d !in s ==> Without(d, Parts(s, c))
  {
    if s != "" {
      PartsHold(s[1..], c, d);
    }
  }

  lemma {:induction false} PartsOfFirst(first: string, rest: string, c: char)
    requires c !in first
    ensures Parts(first + [c] + rest, c) == [first] + Parts(rest, c)
  {
    var s := first + [c] + rest;
    if first == "" {
      assert s[1..] == rest;
    } else {
      assert s[1..] == first[1..] + [c] + rest;
      PartsOfFirst(first[1..], rest, c);
      assert first == [first[0]] + first[1..];
    }
  }

  lemma {:induction false} PartsOfOne(s: string, c: char)
    requires c !in s
    ensures Parts(s, c) == [s]
  {
    if s != "" {
      PartsOfOne(s[1..], c);
      assert s == [s[0]] + s[1..];
    }
  }

  lemma {:induction false} PartsOfJoined(parts: seq<string>, c: char)
    requires parts != [] && Without(c, parts)
    ensures Parts(Joined(parts, c), c) == parts
  {
    if |parts| == 1 {
      PartsOfOne(parts[0], c);
    } else {
      PartsOfFirst(parts[0], Joined(parts[1..], c), c);
      PartsOfJoined(parts[1..], c);
      assert parts == [parts[0]] + parts[1..];
    }
  }

  lemma {:induction false} JoinedHolds(parts: seq<string>, c: char, d: char)
    requires parts != [] && c != d
    ensures d !in Joined(parts, c) <==> Without(d, parts)
  {
    if |parts| > 1 {
      JoinedHolds(parts[1..], c, d);
      var whole := Joined(parts, c);
      assert d in whole <==> d in parts[0] || d in Joined(parts[1..], c);
      assert forall i :: 1 <= i < |parts| ==> parts[i] == parts[1..][i - 1];
      assert forall i :: 0 <= i < |parts| - 1 ==> parts[1..][i] == parts[i + 1];
    }
  }

  // ----- one section -----

  predicate LineOk(line: string) { line != "" && '\n' !in line && '\r' !in line && '\0' !in line }

  predicate AllLinesOk(lines: seq<string>) { forall i :: 0 <= i < |lines| ==> LineOk(lines[i]) }

  function Lines(text: string): Result<seq<string>> {
    var lines := Parts(text, '\n');
    if '\r' in text || (text != "" && text[|text| - 1] == '\n') || exists l :: l in lines && (l == "" || '\0' in l)
    then Err
    else Ok(lines)
  }

  function ParseAll<T>(parse: string -> Result<T>, lines: seq<string>): Result<seq<T>> {
    if lines == [] then Ok([])
    else match parse(lines[0])
      case Err => Err
      case Ok(first) => match ParseAll(parse, lines[1..]) case Err => Err case Ok(others) => Ok([first] + others)
  }

  function Section<T>(parse: string -> Result<T>, text: string): Result<seq<T>> {
    match Lines(text) case Err => Err case Ok(lines) => ParseAll(parse, lines)
  }

  function RenderedLines<T>(render: T -> string, rs: seq<T>): seq<string> {
    seq(|rs|, i requires 0 <= i < |rs| => render(rs[i]))
  }

  function RenderSection<T>(render: T -> string, rs: seq<T>): string
    requires rs != []
  {
    Joined(RenderedLines(render, rs), '\n')
  }

  /** The lines of a section that is read at all. */
  lemma LinesAre(text: string)
    requires Lines(text).Ok?
    ensures AllLinesOk(Lines(text).value)
  {
    PartsHold(text, '\n', '\r');
    forall i | 0 <= i < |Parts(text, '\n')|
      ensures LineOk(Parts(text, '\n')[i])
    {
      assert Parts(text, '\n')[i] in Parts(text, '\n');
    }
  }

  lemma LinesOfJoined(lines: seq<string>)
    requires lines != [] && AllLinesOk(lines)
    ensures Lines(Joined(lines, '\n')) == Ok(lines)
  {
    var text := Joined(lines, '\n');
    PartsOfJoined(lines, '\n');
    JoinedHolds(lines, '\n', '\r');
    LastOfJoined(lines);
  }

  lemma {:induction false} LastOfJoined(lines: seq<string>)
    requires lines != [] && AllLinesOk(lines)
    ensures Joined(lines, '\n') != "" && Joined(lines, '\n')[|Joined(lines, '\n')| - 1] != '\n'
  {
    if |lines| == 1 {
      assert lines[0][|lines[0]| - 1] in lines[0];
    } else {
      assert AllLinesOk(lines[1..]);
      LastOfJoined(lines[1..]);
    }
  }

  lemma {:induction false} ParseAllIs<T>(parse: string -> Result<T>, lines: seq<string>, rs: seq<T>)
    ensures ParseAll(parse, lines) == Ok(rs)
            <==> |lines| == |rs| && forall i :: 0 <= i < |rs| ==> parse(lines[i]) == Ok(rs[i])
  {
    if lines != [] && rs != [] {
      ParseAllIs(parse, lines[1..], rs[1..]);
      assert rs == [rs[0]] + rs[1..];
      assert forall i :: 1 <= i < |lines| ==> lines[i] == lines[1..][i - 1];
      assert forall i :: 1 <= i < |rs| ==> rs[i] == rs[1..][i - 1];
      if |lines| == |rs| && parse(lines[0]) == Ok(rs[0])
         && forall i :: 0 <= i < |rs| - 1 ==> parse(lines[1..][i]) == Ok(rs[1..][i]) {
        forall i | 0 <= i < |rs| ensures parse(lines[i]) == Ok(rs[i]) {
          if i > 0 { assert parse(lines[1..][i - 1]) == Ok(rs[1..][i - 1]); }
        }
      }
      if |lines| == |rs| && forall i :: 0 <= i < |rs| ==> parse(lines[i]) == Ok(rs[i]) {
        forall i | 0 <= i < |rs| - 1 ensures parse(lines[1..][i]) == Ok(rs[1..][i]) {
          assert parse(lines[i + 1]) == Ok(rs[i + 1]);
        }
      }
    }
  }

  /** A record that survives being written and read on its own. */
  predicate Survives<T(==)>(parse: string -> Result<T>, render: T -> string, r: T) {
    LineOk(render(r)) && parse(render(r)) == Ok(r)
  }

  /** A section survives exactly when each of its records does: no record can break the lines of another. */
  lemma SectionRoundTripIff<T>(parse: string -> Result<T>, render: T -> string, rs: seq<T>)
    requires rs != []
    requires forall l :: LineOk(l) && parse(l).Ok? ==> LineOk(render(parse(l).value))
    ensures Section(parse, RenderSection(render, rs)) == Ok(rs)
            <==> forall i :: 0 <= i < |rs| ==> Survives(parse, render, rs[i])
  {
    var lines, text := RenderedLines(render, rs), RenderSection(render, rs);
    if Section(parse, text) == Ok(rs) {
      var read := Lines(text).value;
      LinesAre(text);
      ParseAllIs(parse, read, rs);
      forall i | 0 <= i < |rs|
        ensures LineOk(lines[i])
      {
        assert LineOk(read[i]) && parse(read[i]) == Ok(rs[i]);
      }
    }
    if AllLinesOk(lines) {
      LinesOfJoined(lines);
      ParseAllIs(parse, lines, rs);
    }
    if forall i :: 0 <= i < |rs| ==> Survives(parse, render, rs[i]) {
      forall i | 0 <= i < |rs|
        ensures LineOk(lines[i]) && parse(lines[i]) == Ok(rs[i])
      {
        assert Survives(parse, render, rs[i]);
      }
    }
  }

  // ----- resources -----

  const RESOURCE_FIELD_COUNT := 8

  function ParseResource(reader: Reader, line: string): Result<CapturedResource> {
    var f := Parts(line, '|');
    if |f| != RESOURCE_FIELD_COUNT || reader.number(f[4]).None? || !Sha(f[7]) then Err
    else Ok(CapturedResource(f[0], f[1], f[2], f[3], reader.number(f[4]).value, f[5], f[6], f[7],
                             reader.notation.sha(Utf8(line))))
  }

  function ResourceParts(r: CapturedResource): seq<string> {
    [r.stableId, r.kind, r.name, r.uid, Text(r.generation), r.spec, r.status, r.graph]
  }

  function ResourceLine(r: CapturedResource): string { Joined(ResourceParts(r), '|') }

  /** A text that can stand between separators. */
  predicate Plain(s: string) { '|' !in s && '\n' !in s && '\r' !in s && '\0' !in s }

  predicate AllPlain(parts: seq<string>) { forall i :: 0 <= i < |parts| ==> Plain(parts[i]) }

  predicate ResourceSound(reader: Reader, r: CapturedResource) {
    && AllPlain(ResourceParts(r)) && Sha(r.graph)
    && r.source == reader.notation.sha(Utf8(ResourceLine(r)))
  }

  lemma AllPlainIff(parts: seq<string>)
    ensures AllPlain(parts)
            <==> Without('|', parts) && Without('\n', parts) && Without('\r', parts) && Without('\0', parts)
  {}

  /** Joined parts make one line of as many parts exactly when all of them are plain. */
  lemma JoinedIsLine(parts: seq<string>)
    requires |parts| > 1
    ensures AllPlain(parts) <==> LineOk(Joined(parts, '|')) && Parts(Joined(parts, '|'), '|') == parts
  {
    AllPlainIff(parts);
    JoinedHolds(parts, '|', '\n');
    JoinedHolds(parts, '|', '\r');
    JoinedHolds(parts, '|', '\0');
    PartsHold(Joined(parts, '|'), '|', '\n');
    if Without('|', parts) {
      PartsOfJoined(parts, '|');
    }
  }

  lemma PartsArePlain(line: string)
    requires LineOk(line)
    ensures AllPlain(Parts(line, '|'))
  {
    PartsHold(line, '|', '\n');
    PartsHold(line, '|', '\r');
    PartsHold(line, '|', '\0');
    AllPlainIff(Parts(line, '|'));
  }

  lemma TextIsPlain(n: int)
    ensures Plain(Text(n))
  {
    DecimalParses(if n < 0 then -n else n);
  }

  lemma ResourceSurvivesIff(reader: Reader, r: CapturedResource)
    requires Faithful(reader)
    ensures Survives(l => ParseResource(reader, l), ResourceLine, r) <==> ResourceSound(reader, r)
  {
    hide Plain, Joined, Parts, LineOk;
    var line, f := ResourceLine(r), ResourceParts(r);
    JoinedIsLine(f);
    if LineOk(line) && ParseResource(reader, line) == Ok(r) {
      PartsArePlain(line);
      var g := Parts(line, '|');
      TextIsPlain(r.generation);
      assert Plain(g[0]) && Plain(g[1]) && Plain(g[2]) && Plain(g[3]) && Plain(g[5]) && Plain(g[6]) && Plain(g[7]);
      assert AllPlain(f);
    }
  }

  lemma ReadResourceIsPlain(reader: Reader, line: string)
    requires LineOk(line) && ParseResource(reader, line).Ok?
    ensures LineOk(ResourceLine(ParseResource(reader, line).value))
  {
    hide Plain, Joined, Parts, LineOk;
    var r, g := ParseResource(reader, line).value, Parts(line, '|');
    PartsArePlain(line);
    TextIsPlain(r.generation);
    assert Plain(g[0]) && Plain(g[1]) && Plain(g[2]) && Plain(g[3]) && Plain(g[5]) && Plain(g[6]) && Plain(g[7]);
    assert AllPlain(ResourceParts(r));
    JoinedIsLine(ResourceParts(r));
  }

  /** Written resources are read back, with the digest of each line, exactly when every field can stand between
      separators, every graph is a digest and every source is the digest of its own line. */
  lemma ResourcesRoundTripIff(reader: Reader, rs: seq<CapturedResource>)
    requires Faithful(reader) && rs != []
    ensures Section(l => ParseResource(reader, l), RenderSection(ResourceLine, rs)) == Ok(rs)
            <==> forall i :: 0 <= i < |rs| ==> ResourceSound(reader, rs[i])
  {
    hide Section, RenderSection, ResourceSound, LineOk, ParseResource, ResourceLine, Survives;
    var parse := l => ParseResource(reader, l);
    forall l | LineOk(l) && parse(l).Ok?
      ensures LineOk(ResourceLine(parse(l).value))
    {
      ReadResourceIsPlain(reader, l);
    }
    SectionRoundTripIff(parse, ResourceLine, rs);
    forall i | 0 <= i < |rs|
      ensures Survives(parse, ResourceLine, rs[i]) <==> ResourceSound(reader, rs[i])
    {
      ResourceSurvivesIff(reader, rs[i]);
    }
  }

  // ----- probes -----

  const PROBE_FIELD_COUNT := 10

  function ParseProbe(reader: Reader, line: string): Result<CapturedProbe> {
    var f := Parts(line, '|');
    if |f| != PROBE_FIELD_COUNT || reader.number(f[7]).None? || !Sha(f[3]) || !Sha(f[4]) || reader.instant(f[1]).None?
    then Err
    else Ok(CapturedProbe(f[0], reader.instant(f[1]).value, f[2], f[3], f[4], f[5], f[6],
                          reader.number(f[7]).value, f[8], f[9], reader.notation.sha(Utf8(line))))
  }

  function ProbeParts(reader: Reader, p: CapturedProbe): seq<string> {
    [p.vector, reader.notation.stamp(p.attemptedAt), p.executor, p.target, p.testVector, p.transport, p.resultCode,
     Text(p.durationMs), p.reason, p.outcome]
  }

  function ProbeLine(reader: Reader, p: CapturedProbe): string { Joined(ProbeParts(reader, p), '|') }

  predicate ProbeSound(reader: Reader, p: CapturedProbe) {
    && AllPlain(ProbeParts(reader, p)) && Sha(p.target) && Sha(p.testVector)
    && p.raw == reader.notation.sha(Utf8(ProbeLine(reader, p)))
  }

  lemma ReadProbeIsPlain(reader: Reader, line: string)
    requires Faithful(reader) && LineOk(line) && ParseProbe(reader, line).Ok?
    ensures AllPlain(ProbeParts(reader, ParseProbe(reader, line).value))
    ensures LineOk(ProbeLine(reader, ParseProbe(reader, line).value))
  {
    hide Plain, Joined, Parts, LineOk;
    var p, g := ParseProbe(reader, line).value, Parts(line, '|');
    PartsArePlain(line);
    TextIsPlain(p.durationMs);
    assert Plain(g[0]) && Plain(g[1]) && Plain(g[2]) && Plain(g[3]) && Plain(g[4]) && Plain(g[5]) && Plain(g[6]);
    assert Plain(g[8]) && Plain(g[9]) && g[1] == reader.notation.stamp(p.attemptedAt);
    assert AllPlain(ProbeParts(reader, p));
    JoinedIsLine(ProbeParts(reader, p));
  }

  lemma ProbeSurvivesIff(reader: Reader, p: CapturedProbe)
    requires Faithful(reader)
    ensures Survives(l => ParseProbe(reader, l), q => ProbeLine(reader, q), p) <==> ProbeSound(reader, p)
  {
    hide Plain, Joined, Parts, LineOk;
    var line := ProbeLine(reader, p);
    JoinedIsLine(ProbeParts(reader, p));
    if LineOk(line) && ParseProbe(reader, line) == Ok(p) {
      ReadProbeIsPlain(reader, line);
    }
  }

  /** The same for probes; their instants have one spelling each. */
  lemma ProbesRoundTripIff(reader: Reader, ps: seq<CapturedProbe>)
    requires Faithful(reader) && ps != []
    ensures Section(l => ParseProbe(reader, l), RenderSection(p => ProbeLine(reader, p), ps)) == Ok(ps)
            <==> forall i :: 0 <= i < |ps| ==> ProbeSound(reader, ps[i])
  {
    hide Section, RenderSection, ProbeSound, LineOk, ParseProbe, ProbeLine, Survives, Faithful;
    var parse, render := l => ParseProbe(reader, l), p => ProbeLine(reader, p);
    forall l | LineOk(l) && parse(l).Ok?
      ensures LineOk(render(parse(l).value))
    {
      ReadProbeIsPlain(reader, l);
    }
    SectionRoundTripIff(parse, render, ps);
    forall i | 0 <= i < |ps|
      ensures Survives(parse, render, ps[i]) <==> ProbeSound(reader, ps[i])
    {
      ProbeSurvivesIff(reader, ps[i]);
    }
  }

  // ----- the loops -----

  lemma ParseAllNone<T>(parse: string -> Result<T>)
    ensures ParseAll(parse, []) == Ok([])
  {}

  lemma {:induction false} ParseAllSnoc<T>(parse: string -> Result<T>, lines: seq<string>, i: nat)
    requires i < |lines|
    ensures ParseAll(parse, lines[..i + 1])
            == match ParseAll(parse, lines[..i])
               case Err => Err
               case Ok(done) => (match parse(lines[i]) case Err => Err case Ok(r) => Ok(done + [r]))
    decreases i
  {
    if i == 0 {
      var one := lines[..1];
      assert one[0] == lines[0] && one[1..] == [] && lines[..0] == [];
      assert ParseAll(parse, one[1..]) == Ok([]);
      if parse(lines[0]).Ok? {
        var first := parse(lines[0]).value;
        assert ParseAll(parse, one) == Ok([first] + []);
        assert [first] + [] == [] + [first];
      } else {
        assert ParseAll(parse, one) == Err;
      }
    } else {
      assert lines[..i + 1][1..] == lines[1..][..i] && lines[..i][1..] == lines[1..][..i - 1];
      ParseAllSnoc(parse, lines[1..], i - 1);
      if ParseAll(parse, lines[..i]).Ok? && parse(lines[i]).Ok? {
        var first, done := parse(lines[0]).value, ParseAll(parse, lines[1..][..i - 1]).value;
        assert [first] + (done + [parse(lines[i]).value]) == [first] + done + [parse(lines[i]).value];
      }
    }
  }

  lemma {:induction false} ParseAllFails<T>(parse: string -> Result<T>, lines: seq<string>, i: nat)
    requires i < |lines| && parse(lines[i]).Err?
    ensures ParseAll(parse, lines).Err?
  {
    if i > 0 {
      assert lines[i] == lines[1..][i - 1];
      ParseAllFails(parse, lines[1..], i - 1);
    }
  }

  method ParseResources(reader: Reader, text: string) returns (out: Result<seq<CapturedResource>>)
    ensures out == Section(l => ParseResource(reader, l), text)
  {
    hide ParseResource, ParseAll, Lines;
    ghost var parse := l => ParseResource(reader, l);
    var lines := Lines(text);
    if lines.Err? {
      return Err;
    }
    var parsed: seq<CapturedResource>, i := [], 0;
    ParseAllNone(parse);
    assert lines.value[..0] == [];
    while i < |lines.value|
      invariant 0 <= i <= |lines.value|
      invariant ParseAll(parse, lines.value[..i]) == Ok(parsed)
    {
      ParseAllSnoc(parse, lines.value, i);
      var r := ParseResource(reader, lines.value[i]);
      if r.Err? {
        ParseAllFails(parse, lines.value, i);
        return Err;
      }
      parsed := parsed + [r.value];
      i := i + 1;
    }
    assert lines.value[..i] == lines.value;
    return Ok(parsed);
  }

  method ParseProbes(reader: Reader, text: string) returns (out: Result<seq<CapturedProbe>>)
    ensures out == Section(l => ParseProbe(reader, l), text)
  {
    hide ParseProbe, ParseAll, Lines;
    ghost var parse := l => ParseProbe(reader, l);
    var lines := Lines(text);
    if lines.Err? {
      return Err;
    }
    var parsed: seq<CapturedProbe>, i := [], 0;
    ParseAllNone(parse);
    assert lines.value[..0] == [];
    while i < |lines.value|
      invariant 0 <= i <= |lines.value|
      invariant ParseAll(parse, lines.value[..i]) == Ok(parsed)
    {
      ParseAllSnoc(parse, lines.value, i);
      var r := ParseProbe(reader, lines.value[i]);
      if r.Err? {
        ParseAllFails(parse, lines.value, i);
        return Err;
      }
      parsed := parsed + [r.value];
      i := i + 1;
    }
    assert lines.value[..i] == lines.value;
    return Ok(parsed);
  }
}
