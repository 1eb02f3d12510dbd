/** Every value the parser returns belongs to the subset, so the subset is exactly its range. */
module YamlRange {
  import opened YamlText
  import opened YamlParser
  import opened YamlRender
  import opened YamlRoundTrip
  import opened YamlPrint

  // ----- tokens -----

  predicate Sane(t: Line) { Unbroken(t.text) && (t.block.Some? ==> Blockable(t.block.value)) }

  predicate AllSane(lines: seq<Line>) { forall i :: 0 <= i < |lines| ==> Sane(lines[i]) }

  predicate AllUnbroken(raw: seq<string>) { forall i :: 0 <= i < |raw| ==> Unbroken(raw[i]) }

  lemma CutLineIs(line: string, n: nat)
    requires Unbroken(line) && (!Blank(line) ==> n <= Indent(line))
    ensures BlockLine(CutLine(line, n)) && (Blank(CutLine(line, n)) <==> Blank(line))
    ensures !Blank(line) && n == Indent(line) ==> Indent(CutLine(line, n)) == 0
  {
    if !Blank(line) {
      var cut := line[n..];
      assert forall c :: c in cut ==> c in line;
      var c :| c in line && !Whitespace(c);
      var k :| 0 <= k < |line| && line[k] == c;
      assert k >= n && cut[k - n] == c;
    }
  }

  lemma BlockTextIsBlock(raw: seq<string>, indent: nat)
    requires AllUnbroken(raw)
    ensures Blockable(BlockText(raw, indent))
  {
    var n := BlockIndent(raw, indent + 2);
    var cut := CutLines(raw, n);
    forall i | 0 <= i < |cut|
      ensures BlockLine(cut[i]) && (Blank(cut[i]) <==> Blank(raw[i])) && '\n' !in cut[i]
      ensures !Blank(raw[i]) && n == Indent(raw[i]) ==> Indent(cut[i]) == 0
    {
      CutLineIs(raw[i], n);
      assert LineBreak('\n');
    }
    if raw == [] {
      assert SplitFeeds("") == [""];
    } else {
      SplitJoin(cut);
      if HasContent(cut) {
        var k :| 0 <= k < |cut| && !Blank(cut[k]);
        assert HasContent(raw) by { assert !Blank(raw[k]); }
        var i :| 0 <= i < |raw| && !Blank(raw[i]) && n == Indent(raw[i]);
        assert !Blank(cut[i]) && Indent(cut[i]) == 0;
      }
    }
  }

  lemma PartUnbroken(s: string, i: nat, j: nat)
    requires Unbroken(s) && i <= j <= |s|
    ensures Unbroken(s[i..j])
  {
    assert forall c :: c in s[i..j] ==> c in s;
  }

  lemma {:induction false} TokensSane(raw: seq<string>)
    requires AllUnbroken(raw) && Tokens(raw).Ok?
    ensures AllSane(Tokens(raw).value)
    decreases |raw|
  {
    if raw != [] {
      var indent := Indent(raw[0]);
      var stripped := raw[0][indent..];
      if stripped == "" || stripped[0] == '#' {
        TokensSane(raw[1..]);
      } else {
        var text := RStrip(stripped);
        var marker := MarkerLength(text);
        var extent := if marker == 0 then 0 else BlockExtent(raw[1..], indent);
        PartUnbroken(raw[0], indent, |raw[0]|);
        PartUnbroken(stripped, 0, |text|);
        PartUnbroken(text, 0, |text| - marker);
        UnbrokenConcat(text[..|text| - marker], ":");
        BlockTextIsBlock(raw[1..][..extent], indent);
        TokensSane(raw[1..][extent..]);
      }
    }
  }

  // ----- scalars -----

  /** Quoting a text changes neither what follows nor what precedes any of its characters. */
  lemma PlainIsInline(v: string)
    requires !Refused(v) && Unbroken(v)
    ensures Inline(Unquote(v))
  {
    var s := Unquote(v);
    var q := Quoted(s);
    var shift := if s == v then 1 else 0;
    assert forall c :: c in s ==> c in v by {
      if s != v { assert s == v[1..|v| - 1]; }
    }
    assert forall c :: c in q ==> c == '"' || c in s;
    forall i | 0 <= i < |q|
      ensures !NodeAt(q, i)
    {
      if 0 < i < |q| - 1 && NodeAt(q, i) {
        assert q[i] == v[i - shift];
        assert i + 1 < |q| - 1 ==> q[i + 1] == v[i + 1 - shift];
        assert i > 1 ==> q[i - 1] == v[i - 1 - shift];
        assert NodeAt(v, i - shift);
      }
    }
  }

  lemma StripPart(s: string) returns (i: nat, j: nat)
    ensures i <= j <= |s| && Strip(s) == s[i..j]
  {
    var r := RStrip(s);
    var l := LStrip(r);
    i, j := |r| - |l|, |r|;
    assert l == r[i..] == s[i..j];
  }

  lemma EntryIsSane(text: string)
    requires Unbroken(text) && Entry(text).Ok?
    ensures var e := Entry(text).value; ValidKey(e.0) && Unbroken(e.1)
  {
    var tail := text[|BeforeColon(text)| + 1..];
    PartUnbroken(text, |BeforeColon(text)| + 1, |text|);
    var i, j := StripPart(tail);
    PartUnbroken(tail, i, j);
  }

  // ----- values -----

  lemma {:induction false} NodeIsGood(lines: seq<Line>, indent: nat)
    requires lines != [] && AllSane(lines) && lines[0].indent == indent && Node(lines, indent).Ok?
    ensures var r := Node(lines, indent).value; Good(r.0) && AllSane(r.1)
    decreases |lines|, 2
  {
    if Dash(lines[0].text) {
      ItemsAreGood(lines, indent, []);
      ItemsGrow(lines, indent, []);
    } else {
      FieldsAreGood(lines, indent, []);
      FieldsGrow(lines, indent, []);
    }
  }

  lemma {:induction false} ValueIsGood(block: Option<string>, raw: string, rest: seq<Line>, indent: nat)
    requires AllSane(rest) && Unbroken(raw) && (block.Some? ==> Blockable(block.value))
    requires FieldValue(block, raw, rest, indent).Ok?
    ensures var r := FieldValue(block, raw, rest, indent).value; Good(r.0) && AllSane(r.1)
    decreases |rest|, 3
  {
    if block.None? {
      if raw != "" {
        PlainIsInline(raw);
      } else if rest != [] && rest[0].indent > indent {
        NodeIsGood(rest, rest[0].indent);
      } else {
        PlainIsInline("");
      }
    }
  }

  lemma DistinctSnoc(done: seq<Field>, f: Field)
    requires GoodFields(done) && !Has(done, f.key) && ValidKey(f.key) && Good(f.value)
    ensures GoodFields(done + [f])
  {}

  lemma {:induction false} FieldsAreGood(lines: seq<Line>, indent: nat, done: seq<Field>)
    requires AllSane(lines) && GoodFields(done) && Fields(lines, indent, done).Ok?
    ensures var r := Fields(lines, indent, done).value; GoodFields(r.0) && AllSane(r.1)
    decreases |lines|, 1
  {
    if lines != [] && lines[0].indent == indent && !Dash(lines[0].text) {
      EntryIsSane(lines[0].text);
      var e := Entry(lines[0].text).value;
      ValueIsGood(lines[0].block, e.1, lines[1..], indent);
      var v := FieldValue(lines[0].block, e.1, lines[1..], indent).value;
      DistinctSnoc(done, Field(e.0, v.0));
      FieldsAreGood(v.1, indent, done + [Field(e.0, v.0)]);
    }
  }

  /** The fields already read stay, and a first line of the right kind adds one. */
  lemma {:induction false} FieldsGrow(lines: seq<Line>, indent: nat, done: seq<Field>)
    requires Fields(lines, indent, done).Ok?
    ensures var r := Fields(lines, indent, done).value;
            && |r.0| >= |done|
            && (lines != [] && lines[0].indent == indent && !Dash(lines[0].text) ==> |r.0| > |done|)
    decreases |lines|
  {
    if lines != [] && lines[0].indent == indent && !Dash(lines[0].text) {
      var e := Entry(lines[0].text).value;
      var v := FieldValue(lines[0].block, e.1, lines[1..], indent).value;
      FieldsGrow(v.1, indent, done + [Field(e.0, v.0)]);
    }
  }

  lemma {:induction false} ItemIsGood(line: Line, remainder: string, rest: seq<Line>, indent: nat)
    requires AllSane(rest) && Sane(line) && Unbroken(remainder) && MappingItem(line, remainder, rest, indent).Ok?
    ensures var r := MappingItem(line, remainder, rest, indent).value; GoodItem(r.0) && AllSane(r.1)
    decreases |rest|, 5
  {
    hide Good, GoodItem;
    EntryIsSane(remainder);
    var e := Entry(remainder).value;
    ValueIsGood(line.block, e.1, rest, indent + 2);
    var v := FieldValue(line.block, e.1, rest, indent + 2).value;
    TailIsGood(v.1, indent + 2);
    ConsIsGood(Field(e.0, v.0), Tail(v.1, indent + 2).value.0);
  }

  lemma ConsIsGood(f: Field, others: seq<Field>)
    requires ValidKey(f.key) && Good(f.value) && GoodFields(others) && DistinctKeys([f] + others)
    ensures GoodItem(Mapping([f] + others))
  {
    var fields := [f] + others;
    assert forall i :: 0 < i < |fields| ==> fields[i] == others[i - 1];
    assert GoodFields(fields);
    assert Good(Mapping(fields));
  }

  lemma {:induction false} TailIsGood(lines: seq<Line>, indent: nat)
    requires AllSane(lines) && Tail(lines, indent).Ok?
    ensures var r := Tail(lines, indent).value; GoodFields(r.0) && AllSane(r.1)
    decreases |lines|, 4
  {
    if lines != [] && lines[0].indent == indent {
      NodeIsGood(lines, indent);
      assert Good(Node(lines, indent).value.0);
    }
  }

  lemma GoodItemsSnoc(done: seq<Value>, v: Value)
    requires GoodItems(done) && GoodItem(v)
    ensures GoodItems(done + [v])
  {}

  lemma ScalarItemIsGood(remainder: string)
    requires Unbroken(remainder) && ':' !in remainder && PlainScalar(remainder).Ok?
    ensures GoodItem(Scalar(PlainScalar(remainder).value))
  {
    PlainIsInline(remainder);
    assert forall c :: c in Unquote(remainder) ==> c in remainder;
  }

  lemma RemainderIsSane(text: string)
    requires Unbroken(text) && Dash(text)
    ensures Unbroken(Strip(text[2..]))
  {
    PartUnbroken(text, 2, |text|);
    var i, j := StripPart(text[2..]);
    PartUnbroken(text[2..], i, j);
  }

  lemma {:induction false} ItemsAreGood(lines: seq<Line>, indent: nat, done: seq<Value>)
    requires AllSane(lines) && GoodItems(done) && Items(lines, indent, done).Ok?
    ensures var r := Items(lines, indent, done).value; GoodItems(r.0) && AllSane(r.1)
    decreases |lines|, 1
  {
    hide Good, GoodItem, GoodItems, Strip, PlainScalar, MappingItem;
    if lines != [] && lines[0].indent == indent && Dash(lines[0].text) {
      var remainder := Strip(lines[0].text[2..]);
      RemainderIsSane(lines[0].text);
      if ':' !in remainder {
        ScalarItemIsGood(remainder);
        GoodItemsSnoc(done, Scalar(PlainScalar(remainder).value));
        ItemsAreGood(lines[1..], indent, done + [Scalar(PlainScalar(remainder).value)]);
      } else {
        ItemIsGood(lines[0], remainder, lines[1..], indent);
        var r := MappingItem(lines[0], remainder, lines[1..], indent).value;
        GoodItemsSnoc(done, r.0);
        ItemsAreGood(r.1, indent, done + [r.0]);
      }
    }
  }

  lemma {:induction false} ItemsGrow(lines: seq<Line>, indent: nat, done: seq<Value>)
    requires Items(lines, indent, done).Ok?
    ensures var r := Items(lines, indent, done).value;
            && |r.0| >= |done|
            && (lines != [] && lines[0].indent == indent && Dash(lines[0].text) ==> |r.0| > |done|)
    decreases |lines|
  {
    if lines != [] && lines[0].indent == indent && Dash(lines[0].text) {
      var remainder := Strip(lines[0].text[2..]);
      if ':' !in remainder {
        ItemsGrow(lines[1..], indent, done + [Scalar(PlainScalar(remainder).value)]);
      } else {
        var r := MappingItem(lines[0], remainder, lines[1..], indent).value;
        ItemsGrow(r.1, indent, done + [r.0]);
      }
    }
  }

  // ----- the canonical choice -----

  lemma {:induction false} CanonicalSays(v: Value)
    requires Good(v)
    ensures Sayable(Canonical(v)) && Meaning(Canonical(v)) == v
    decreases v, 0
  {
    hide Inline, Blockable;
    match v
    case Scalar(_) =>
    case Mapping(fields) => CanonicalFieldsSay(fields);
    case Sequence(items) => CanonicalItemsSay(items);
  }

  lemma {:induction false} CanonicalFieldsSay(fields: seq<Field>)
    requires GoodFields(fields)
    ensures SayableFields(CanonicalFields(fields)) && FieldMeanings(CanonicalFields(fields)) == fields
    ensures forall i :: 0 <= i < |fields| ==> CanonicalFields(fields)[i].key == fields[i].key
    decreases fields, 1
  {
    hide Good, Sayable;
    if fields != [] {
      CanonicalSays(fields[0].value);
      CanonicalFieldsSay(fields[1..]);
      assert fields == [fields[0]] + fields[1..];
      assert CanonicalFields(fields)[1..] == CanonicalFields(fields[1..]);
      assert forall i :: 0 < i < |fields| ==> fields[i] == fields[1..][i - 1];
    }
  }

  lemma {:induction false} CanonicalItemsSay(items: seq<Value>)
    requires GoodItems(items)
    ensures SayableItems(CanonicalItems(items)) && ItemMeanings(CanonicalItems(items)) == items
    decreases items, 1
  {
    if items != [] {
      hide Inline, Blockable, Sayable, Good;
      var item := items[0];
      assert GoodItem(item);
      if item.Mapping? { CanonicalMappingSays(item); }
      CanonicalItemsSay(items[1..]);
      assert items == [item] + items[1..];
      assert SayableItem(Canonical(item)) && Meaning(Canonical(item)) == item;
    }
  }

  lemma {:induction false} CanonicalMappingSays(v: Value)
    requires v.Mapping? && GoodItem(v)
    ensures Sayable(Canonical(v)) && Canonical(v).WMapping? && Meaning(Canonical(v)) == v
    decreases v, 1
  {
    CanonicalSays(v);
  }

  // ----- the range -----

  /** Whatever text is parsed, the result has no duplicate key at any depth, no empty mapping or sequence, only valid
      keys, and only scalars that a quotation or a block can say. */
  lemma ParsedIsGood(content: string)
    requires Parse(content).Ok?
    ensures Good(Parse(content).value) && Parse(content).value.Mapping?
  {
    var raw := SplitLines(content);
    TokensSane(raw);
    NodeIsGood(Tokens(raw).value, 0);
  }

  /** The subset is exactly the range of the parser. */
  lemma RangeIff(m: Value)
    requires m.Mapping?
    ensures Good(m) <==> exists content :: Parse(content) == Ok(m)
  {
    if Good(m) {
      CanonicalSays(m);
      RoundTrip(GUARDED, Canonical(m));
    }
    forall content | Parse(content) == Ok(m)
      ensures Good(m)
    {
      ParsedIsGood(content);
    }
  }

  const GUARDED := Pen(true, _ => false)

  /** Printing what was parsed in the canonical styles, and parsing it again, changes nothing. */
  lemma ParsingIsStable(content: string)
    requires Parse(content).Ok?
    ensures Parse(content).value.Mapping?
    ensures Parse(Render(GUARDED, Canonical(Parse(content).value))) == Parse(content)
  {
    ParsedIsGood(content);
    CanonicalSays(Parse(content).value);
    RoundTrip(GUARDED, Canonical(Parse(content).value));
  }
}
