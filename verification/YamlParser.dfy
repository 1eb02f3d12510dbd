/** The strict workflow parser: lines to tokens, tokens to values (workflow_yaml_parser.py:20-191). */
module YamlParser {
  import opened YamlText

  datatype Value = Scalar(text: string) | Mapping(fields: seq<Field>) | Sequence(items: seq<Value>)

  datatype Field = Field(key: string, value: Value)

  datatype Line = Line(indent: nat, text: string, block: Option<string>)

  // ----- tokens -----

  const LITERAL := ": |"
  const LITERAL_STRIP := ": |-"

  /** How many of these lines belong to a block opened at `indent`: all up to a line with content no deeper. */
  function BlockExtent(raw: seq<string>, indent: nat): (n: nat)
    ensures n <= |raw|
  {
    if raw == [] || (!Blank(raw[0]) && Indent(raw[0]) <= indent) then 0 else 1 + BlockExtent(raw[1..], indent)
  }

  predicate HasContent(raw: seq<string>) { exists i :: 0 <= i < |raw| && !Blank(raw[i]) }

  function Min(a: nat, b: nat): nat { if a <= b then a else b }

  /** The least indentation of the lines with content. */
  function LeastIndent(raw: seq<string>): (n: nat)
    requires HasContent(raw)
    ensures forall i :: 0 <= i < |raw| && !Blank(raw[i]) ==> n <= Indent(raw[i])
    ensures exists i :: 0 <= i < |raw| && !Blank(raw[i]) && n == Indent(raw[i])
  {
    if Blank(raw[0]) then
      assert forall i :: 0 < i < |raw| ==> raw[i] == raw[1..][i - 1];
      LeastIndent(raw[1..])
    else if !HasContent(raw[1..]) then
      assert forall i :: 0 < i < |raw| ==> raw[i] == raw[1..][i - 1];
      Indent(raw[0])
    else
      assert forall i :: 0 < i < |raw| ==> raw[i] == raw[1..][i - 1];
      Min(Indent(raw[0]), LeastIndent(raw[1..]))
  }

  function CutLine(line: string, n: nat): string
    requires !Blank(line) ==> n <= Indent(line)
  {
    if Blank(line) then "" else line[n..]
  }

  function BlockIndent(raw: seq<string>, otherwise: nat): (n: nat)
    ensures forall i :: 0 <= i < |raw| && !Blank(raw[i]) ==> n <= Indent(raw[i])
  {
    if HasContent(raw) then LeastIndent(raw) else otherwise
  }

  function CutLines(raw: seq<string>, n: nat): (r: seq<string>)
    requires forall i :: 0 <= i < |raw| && !Blank(raw[i]) ==> n <= Indent(raw[i])
    ensures |r| == |raw| && forall i :: 0 <= i < |raw| ==> r[i] == CutLine(raw[i], n)
  {
    seq(|raw|, i requires 0 <= i < |raw| => CutLine(raw[i], n))
  }

  function BlockText(raw: seq<string>, indent: nat): string {
    JoinLines(CutLines(raw, BlockIndent(raw, indent + 2)))
  }

  /** How many characters of the text mark a block, if any. */
  function MarkerLength(text: string): (n: nat)
    ensures n <= |text|
  {
    if EndsWith(text, LITERAL) then 3 else if EndsWith(text, LITERAL_STRIP) then 4 else 0
  }

  function Tokens(raw: seq<string>): Result<seq<Line>>
    decreases |raw|
  {
    if raw == [] then Ok([])
    else
      var indent := Indent(raw[0]);
      var stripped := raw[0][indent..];
      if stripped != "" && stripped[0] == '\t' then Fail
      else if stripped == "" || stripped[0] == '#' then Tokens(raw[1..])
      else
        var text := RStrip(stripped);
        var marker := MarkerLength(text);
        var extent := if marker == 0 then 0 else BlockExtent(raw[1..], indent);
        var token := if marker == 0 then Line(indent, text, None)
                     else Line(indent, text[..|text| - marker] + ":", Some(BlockText(raw[1..][..extent], indent)));
        match Tokens(raw[1..][extent..]) case Fail => Fail case Ok(others) => Ok([token] + others)
  }

  // ----- values -----

  predicate Dash(text: string) { |text| >= 2 && text[0] == '-' && text[1] == ' ' }

  predicate Has(fields: seq<Field>, key: string) { exists i :: 0 <= i < |fields| && fields[i].key == key }

  predicate DistinctKeys(fields: seq<Field>) {
    forall i, j :: 0 <= i < j < |fields| ==> fields[i].key != fields[j].key
  }

  function Node(lines: seq<Line>, indent: nat): (r: Result<(Value, seq<Line>)>)
    requires lines != []
    ensures r.Ok? ==> |r.value.1| <= |lines|
    decreases |lines|, 2
  {
    if Dash(lines[0].text) then
      match Items(lines, indent, []) case Fail => Fail case Ok((items, rest)) => Ok((Sequence(items), rest))
    else
      match Fields(lines, indent, []) case Fail => Fail case Ok((fields, rest)) => Ok((Mapping(fields), rest))
  }

  /** The value that follows a key: a block, the rest of its line, deeper lines, or nothing. */
  function FieldValue(block: Option<string>, raw: string, rest: seq<Line>, indent: nat): (r: Result<(Value, seq<Line>)>)
    ensures r.Ok? ==> |r.value.1| <= |rest|
    decreases |rest|, 3
  {
    if block.Some? then Ok((Scalar(block.value), rest))
    else if raw != "" then
      match PlainScalar(raw) case Fail => Fail case Ok(text) => Ok((Scalar(text), rest))
    else if rest != [] && rest[0].indent > indent then Node(rest, rest[0].indent)
    else Ok((Scalar(""), rest))
  }

  /** The fields at one indentation, after those already read. */
  function Fields(lines: seq<Line>, indent: nat, done: seq<Field>): (r: Result<(seq<Field>, seq<Line>)>)
    ensures r.Ok? ==> |r.value.1| <= |lines|
    decreases |lines|, 1
  {
    if lines == [] || lines[0].indent != indent || Dash(lines[0].text) then Ok((done, lines))
    else match Entry(lines[0].text)
      case Fail => Fail
      case Ok((key, raw)) =>
        match FieldValue(lines[0].block, raw, lines[1..], indent)
        case Fail => Fail
        case Ok((value, rest)) =>
          if Has(done, key) then Fail else Fields(rest, indent, done + [Field(key, value)])
  }

  /** One item that starts a mapping: its first field shares the dash's line. */
  function MappingItem(line: Line, remainder: string, rest: seq<Line>, indent: nat): (r: Result<(Value, seq<Line>)>)
    ensures r.Ok? ==> |r.value.1| <= |rest|
    decreases |rest|, 4
  {
    match Entry(remainder)
    case Fail => Fail
    case Ok((key, raw)) =>
      match FieldValue(line.block, raw, rest, indent + 2)
      case Fail => Fail
      case Ok((first, after)) =>
        match Tail(after, indent + 2)
        case Fail => Fail
        case Ok((others, last)) =>
          var fields := [Field(key, first)] + others;
          if DistinctKeys(fields) then Ok((Mapping(fields), last)) else Fail
  }

  /** The further fields of such a mapping. */
  function Tail(lines: seq<Line>, indent: nat): (r: Result<(seq<Field>, seq<Line>)>)
    ensures r.Ok? ==> |r.value.1| <= |lines|
    decreases |lines|, 3
  {
    if lines == [] || lines[0].indent != indent then Ok(([], lines))
    else match Node(lines, indent)
      case Fail => Fail
      case Ok((value, rest)) => if value.Mapping? then Ok((value.fields, rest)) else Fail
  }

  /** The items at one indentation, after those already read. */
  function Items(lines: seq<Line>, indent: nat, done: seq<Value>): (r: Result<(seq<Value>, seq<Line>)>)
    ensures r.Ok? ==> |r.value.1| <= |lines|
    decreases |lines|, 1
  {
    if lines == [] || lines[0].indent != indent || !Dash(lines[0].text) then Ok((done, lines))
    else
      var remainder := Strip(lines[0].text[2..]);
      if ':' !in remainder then
        match PlainScalar(remainder)
        case Fail => Fail
        case Ok(text) => Items(lines[1..], indent, done + [Scalar(text)])
      else match MappingItem(lines[0], remainder, lines[1..], indent)
        case Fail => Fail
        case Ok((value, rest)) => Items(rest, indent, done + [value])
  }

  function ParseTokens(lines: seq<Line>): Result<Value> {
    if lines == [] || lines[0].indent != 0 then Fail
    else match Node(lines, 0)
      case Fail => Fail
      case Ok((value, rest)) => if rest == [] && value.Mapping? then Ok(value) else Fail
  }

  function Parse(content: string): Result<Value> {
    match Tokens(SplitLines(content)) case Fail => Fail case Ok(lines) => ParseTokens(lines)
  }
}
