/** The loops of the tokenizer and the parser (workflow_yaml_parser.py:52-121, 140-176). */
module YamlMachine {
  import opened YamlText
  import opened YamlParser

  // ----- the tokenizer -----

  function Prepend(done: seq<Line>, r: Result<seq<Line>>): Result<seq<Line>> {
    match r case Fail => Fail case Ok(others) => Ok(done + others)
  }

  lemma PrependNothing(r: Result<seq<Line>>)
    ensures Prepend([], r) == r
  {
    assert r.Ok? ==> [] + r.value == r.value;
  }

  lemma PrependMore(done: seq<Line>, token: Line, r: Result<seq<Line>>)
    ensures Prepend(done, match r case Fail => Fail case Ok(others) => Ok([token] + others))
        == Prepend(done + [token], r)
  {
    if r.Ok? {
      assert done + ([token] + r.value) == done + [token] + r.value;
    }
  }

  /** The end of the block whose lines start at `index`. */
  method BlockEnd(raw: seq<string>, index: nat, indent: nat) returns (end: nat)
    requires index <= |raw|
    ensures index <= end <= |raw| && end - index == BlockExtent(raw[index..], indent)
  {
    end := index;
    while end < |raw|
      invariant index <= end <= |raw|
      invariant BlockExtent(raw[index..], indent) == end - index + BlockExtent(raw[end..], indent)
    {
      var candidate := raw[end];
      if !Blank(candidate) && Indent(candidate) <= indent {
        break;
      }
      assert raw[end..][1..] == raw[end + 1..];
      end := end + 1;
    }
  }

  lemma TokensSkip(raw: seq<string>)
    requires raw != [] && (raw[0][Indent(raw[0])..] == "" || raw[0][Indent(raw[0])] == '#')
    ensures Tokens(raw) == Tokens(raw[1..])
  {}

  /** One line, or one line and its block. */
  lemma TokensOne(raw: seq<string>, token: Line, extent: nat)
    requires raw != [] && Indent(raw[0]) < |raw[0]| && extent < |raw|
    requires raw[0][Indent(raw[0])] != '\t' && raw[0][Indent(raw[0])] != '#'
    requires var indent := Indent(raw[0]);
             var text := RStrip(raw[0][indent..]);
             var marker := MarkerLength(text);
             if marker == 0 then extent == 0 && token == Line(indent, text, None)
             else && extent == BlockExtent(raw[1..], indent)
                  && token == Line(indent, text[..|text| - marker] + ":", Some(BlockText(raw[1..][..extent], indent)))
    ensures Tokens(raw) == match Tokens(raw[1..][extent..]) case Fail => Fail case Ok(others) => Ok([token] + others)
  {}

  /** The token of the line at `index`, with its block, and where the next line is. */
  method NextToken(raw: seq<string>, index: nat) returns (token: Line, end: nat)
    requires index < |raw| && Indent(raw[index]) < |raw[index]|
    requires raw[index][Indent(raw[index])] != '\t' && raw[index][Indent(raw[index])] != '#'
    ensures index < end <= |raw|
    ensures Tokens(raw[index..]) ==
            match Tokens(raw[end..]) case Fail => Fail case Ok(others) => Ok([token] + others)
  {
    hide Tokens, RStrip, MarkerLength, BlockExtent, BlockText;
    var indent := Indent(raw[index]);
    var text := RStrip(raw[index][indent..]);
    var marker := MarkerLength(text);
    assert raw[index..][0] == raw[index] && raw[index..][1..] == raw[index + 1..];
    if marker == 0 {
      token, end := Line(indent, text, None), index + 1;
    } else {
      end := BlockEnd(raw, index + 1, indent);
      assert raw[index + 1..][..end - index - 1] == raw[index + 1..end];
      token := Line(indent, text[..|text| - marker] + ":", Some(BlockText(raw[index + 1..end], indent)));
    }
    TokensOne(raw[index..], token, end - index - 1);
    assert raw[index + 1..][end - index - 1..] == raw[end..];
  }

  lemma TokensTab(raw: seq<string>)
    requires raw != [] && Indent(raw[0]) < |raw[0]| && raw[0][Indent(raw[0])] == '\t'
    ensures Tokens(raw) == Fail
  {}

  method Tokenize(raw: seq<string>) returns (r: Result<seq<Line>>)
    ensures r == Tokens(raw)
  {
    hide Tokens;
    var tokens: seq<Line> := [];
    var index := 0;
    PrependNothing(Tokens(raw));
    assert raw[0..] == raw;
    while index < |raw|
      invariant 0 <= index <= |raw|
      invariant Tokens(raw) == Prepend(tokens, Tokens(raw[index..]))
      decreases |raw| - index
    {
      var stripped := raw[index][Indent(raw[index])..];
      assert raw[index..][0] == raw[index] && raw[index..][1..] == raw[index + 1..];
      if stripped != "" && stripped[0] == '\t' {
        TokensTab(raw[index..]);
        return Fail;
      }
      if stripped == "" || stripped[0] == '#' {
        TokensSkip(raw[index..]);
        index := index + 1;
        continue;
      }
      var token, end := NextToken(raw, index);
      PrependMore(tokens, token, Tokens(raw[end..]));
      tokens, index := tokens + [token], end;
    }
    NoTokens(tokens);
    assert raw[index..] == [];
    return Ok(tokens);
  }

  lemma NoTokens(tokens: seq<Line>)
    ensures Prepend(tokens, Tokens([])) == Ok(tokens)
  {
    assert tokens + [] == tokens;
  }

  // ----- the parser -----

  /** A result with a line number agrees with one that holds the lines left over. */
  predicate Agrees<T(==)>(lines: seq<Line>, spec: Result<(T, seq<Line>)>, got: Result<(T, nat)>) {
    match spec
    case Fail => got.Fail?
    case Ok((value, rest)) =>
      got.Ok? && got.value.0 == value && got.value.1 <= |lines| && rest == lines[got.value.1..]
  }

  lemma FieldsEnd(lines: seq<Line>, indent: nat, done: seq<Field>)
    requires lines == [] || lines[0].indent != indent || Dash(lines[0].text)
    ensures Fields(lines, indent, done) == Ok((done, lines))
  {}

  lemma FieldsNext(lines: seq<Line>, indent: nat, done: seq<Field>, key: string, raw: string, value: Value,
                   rest: seq<Line>)
    requires lines != [] && lines[0].indent == indent && !Dash(lines[0].text)
    requires Entry(lines[0].text) == Ok((key, raw))
    requires FieldValue(lines[0].block, raw, lines[1..], indent) == Ok((value, rest)) && !Has(done, key)
    ensures Fields(lines, indent, done) == Fields(rest, indent, done + [Field(key, value)])
  {}

  lemma FieldsFail(lines: seq<Line>, indent: nat, done: seq<Field>)
    requires lines != [] && lines[0].indent == indent && !Dash(lines[0].text)
    requires var e := Entry(lines[0].text);
             e.Ok? ==> FieldValue(lines[0].block, e.value.1, lines[1..], indent).Fail? || Has(done, e.value.0)
    ensures Fields(lines, indent, done) == Fail
  {}

  lemma ItemsEnd(lines: seq<Line>, indent: nat, done: seq<Value>)
    requires lines == [] || lines[0].indent != indent || !Dash(lines[0].text)
    ensures Items(lines, indent, done) == Ok((done, lines))
  {}

  lemma ItemsScalar(lines: seq<Line>, indent: nat, done: seq<Value>)
    requires lines != [] && lines[0].indent == indent && Dash(lines[0].text) && ':' !in Strip(lines[0].text[2..])
    ensures var text := PlainScalar(Strip(lines[0].text[2..]));
            Items(lines, indent, done) == if text.Fail? then Fail
                else Items(lines[1..], indent, done + [Scalar(text.value)])
  {}

  lemma ItemsMapping(lines: seq<Line>, indent: nat, done: seq<Value>)
    requires lines != [] && lines[0].indent == indent && Dash(lines[0].text) && ':' in Strip(lines[0].text[2..])
    ensures var r := MappingItem(lines[0], Strip(lines[0].text[2..]), lines[1..], indent);
            Items(lines, indent, done) == if r.Fail? then Fail else Items(r.value.1, indent, done + [r.value.0])
  {}

  datatype WorkflowParser = WorkflowParser(lines: seq<Line>) {

    method ParseDocument() returns (r: Result<Value>)
      ensures r == ParseTokens(lines)
    {
      if lines == [] || lines[0].indent != 0 {
        return Fail;
      }
      assert lines[0..] == lines;
      var node := ParseNode(0, 0);
      if node.Fail? || node.value.1 != |lines| || !node.value.0.Mapping? {
        return Fail;
      }
      return Ok(node.value.0);
    }

    method ParseNode(index: nat, indent: nat) returns (r: Result<(Value, nat)>)
      requires index < |lines|
      ensures Agrees(lines, Node(lines[index..], indent), r)
      decreases |lines| - index, 2
    {
      if Dash(lines[index].text) {
        var items := ParseSequence(index, indent);
        r := if items.Ok? then Ok((Sequence(items.value.0), items.value.1)) else Fail;
      } else {
        var fields := ParseMapping(index, indent);
        r := if fields.Ok? then Ok((Mapping(fields.value.0), fields.value.1)) else Fail;
      }
    }

    method ParseValue(block: Option<string>, raw: string, index: nat, indent: nat) returns (r: Result<(Value, nat)>)
      requires index <= |lines|
      ensures Agrees(lines, FieldValue(block, raw, lines[index..], indent), r)
      decreases |lines| - index, 3
    {
      if block.Some? {
        return Ok((Scalar(block.value), index));
      } else if raw != "" {
        var text := PlainScalar(raw);
        return if text.Ok? then Ok((Scalar(text.value), index)) else Fail;
      } else if index < |lines| && lines[index].indent > indent {
        r := ParseNode(index, lines[index].indent);
      } else {
        return Ok((Scalar(""), index));
      }
    }

    method ParseMapping(start: nat, indent: nat) returns (r: Result<(seq<Field>, nat)>)
      requires start <= |lines|
      ensures Agrees(lines, Fields(lines[start..], indent, []), r)
      decreases |lines| - start, 1
    {
      hide Fields, FieldValue, Entry;
      var values: seq<Field> := [];
      var index := start;
      while index < |lines| && lines[index].indent >= indent
        invariant start <= index <= |lines|
        invariant Fields(lines[start..], indent, []) == Fields(lines[index..], indent, values)
        decreases |lines| - index
      {
        var line := lines[index];
        if line.indent != indent || Dash(line.text) {
          break;
        }
        assert lines[index..][1..] == lines[index + 1..];
        var entry := Entry(line.text);
        if entry.Fail? {
          FieldsFail(lines[index..], indent, values);
          return Fail;
        }
        var (key, raw) := entry.value;
        var value := ParseValue(line.block, raw, index + 1, indent);
        if value.Fail? || Has(values, key) {
          FieldsFail(lines[index..], indent, values);
          return Fail;
        }
        FieldsNext(lines[index..], indent, values, key, raw, value.value.0, lines[value.value.1..]);
        values := values + [Field(key, value.value.0)];
        index := value.value.1;
      }
      FieldsEnd(lines[index..], indent, values);
      return Ok((values, index));
    }

    method ParseSequence(start: nat, indent: nat) returns (r: Result<(seq<Value>, nat)>)
      requires start <= |lines|
      ensures Agrees(lines, Items(lines[start..], indent, []), r)
      decreases |lines| - start, 1
    {
      hide Items, MappingItem, PlainScalar, Strip;
      var values: seq<Value> := [];
      var index := start;
      while index < |lines|
        invariant start <= index <= |lines|
        invariant Items(lines[start..], indent, []) == Items(lines[index..], indent, values)
        decreases |lines| - index
      {
        var line := lines[index];
        if line.indent != indent || !Dash(line.text) {
          break;
        }
        var remainder := Strip(line.text[2..]);
        assert lines[index..][1..] == lines[index + 1..];
        if ':' !in remainder {
          ItemsScalar(lines[index..], indent, values);
          var text := PlainScalar(remainder);
          if text.Fail? {
            return Fail;
          }
          values, index := values + [Scalar(text.value)], index + 1;
        } else {
          ItemsMapping(lines[index..], indent, values);
          var item := ParseItem(line, remainder, index + 1, indent);
          if item.Fail? {
            return Fail;
          }
          values, index := values + [item.value.0], item.value.1;
        }
      }
      ItemsEnd(lines[index..], indent, values);
      return Ok((values, index));
    }

    /** An item that starts a mapping: its first field, then the fields two columns deeper than the dash. */
    method ParseItem(line: Line, remainder: string, index: nat, indent: nat) returns (r: Result<(Value, nat)>)
      requires index <= |lines|
      ensures Agrees(lines, MappingItem(line, remainder, lines[index..], indent), r)
      decreases |lines| - index, 4
    {
      var entry := Entry(remainder);
      if entry.Fail? {
        return Fail;
      }
      var (key, raw) := entry.value;
      var first := ParseValue(line.block, raw, index, indent + 2);
      if first.Fail? {
        return Fail;
      }
      var tail := ParseTail(first.value.1, indent + 2);
      if tail.Fail? {
        return Fail;
      }
      var fields := [Field(key, first.value.0)] + tail.value.0;
      if !DistinctKeys(fields) {
        return Fail;
      }
      return Ok((Mapping(fields), tail.value.1));
    }

    method ParseTail(index: nat, indent: nat) returns (r: Result<(seq<Field>, nat)>)
      requires index <= |lines|
      ensures Agrees(lines, Tail(lines[index..], indent), r)
      decreases |lines| - index, 3
    {
      if index == |lines| || lines[index].indent != indent {
        return Ok(([], index));
      }
      var tail := ParseNode(index, indent);
      if tail.Fail? || !tail.value.0.Mapping? {
        return Fail;
      }
      return Ok((tail.value.0.fields, tail.value.1));
    }
  }

  /** The whole of it: text to mapping. */
  method ParseYamlMapping(content: string) returns (r: Result<Value>)
    ensures r == Parse(content)
  {
    var tokens := Tokenize(SplitLines(content));
    if tokens.Fail? {
      return Fail;
    }
    r := WorkflowParser(tokens.value).ParseDocument();
  }
}
