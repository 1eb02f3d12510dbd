/** Exactly when the rendering without guard comments reads back (workflow_yaml_parser.py:98-120, 159-175). */
module YamlPlain {
  import opened YamlText
  import opened YamlParser
  import opened YamlRender
  import opened YamlRoundTrip
  import opened YamlPrint

  // ----- which values need no guard -----

  /** No item of a sequence starts with a field written as a block and has further fields. */
  predicate Guardless(w: Written)
    decreases w, 0
  {
    match w
    case WScalar(_, _) => true
    case WMapping(fields) => GuardlessFields(fields)
    case WSequence(items) => GuardlessItems(items)
  }

  predicate GuardlessFields(fields: seq<WField>)
    decreases fields, 1
  {
    forall i :: 0 <= i < |fields| ==> Guardless(fields[i].value)
  }

  predicate GuardlessItems(items: seq<Written>)
    decreases items, 2
  {
    forall i :: 0 <= i < |items| ==> GuardlessItem(items[i])
  }

  predicate GuardlessItem(w: Written)
    decreases w, 1
  {
    Guardless(w) && (w.WMapping? && |w.fields| > 1 ==> !IsBlock(w.fields[0].value))
  }

  predicate SwallowsAt(tokens: seq<Line>, i: nat) {
    i + 1 < |tokens| && tokens[i].block.Some? && tokens[i].indent < tokens[i + 1].indent
  }

  predicate Quiet(tokens: seq<Line>) { forall i :: 0 <= i < |tokens| ==> !SwallowsAt(tokens, i) }

  // ----- lines without a guard -----

  lemma QuietRest(tokens: seq<Line>)
    requires tokens != []
    ensures Quiet(tokens) <==> !Swallows(tokens) && Quiet(tokens[1..])
  {
    assert SwallowsAt(tokens, 0) <==> Swallows(tokens);
    assert forall i: nat :: SwallowsAt(tokens[1..], i) ==> SwallowsAt(tokens, i + 1);
    assert forall i: nat :: i > 0 && SwallowsAt(tokens, i) ==> SwallowsAt(tokens[1..], i - 1);
  }

  lemma LineDeeper(pen: Pen, t: Line, indent: nat)
    requires TokenOk(t) && t.indent > indent
    ensures AllDeeper(PrintLine(pen, t), indent)
  {
    hide TextOk, OwnText;
    OwnLine(pen, t);
    if t.block.Some? {
      IndentedAll(SplitFeeds(t.block.value), t.indent + 4);
    }
  }

  lemma DropPrefix<T>(a: seq<T>, b: seq<T>, n: nat)
    requires n <= |b|
    ensures (a + b)[|a| + n..] == b[n..]
  {}

  lemma ExtentStops(pen: Pen, tokens: seq<Line>, indent: nat)
    requires AllOk(tokens) && !pen.guarded && (tokens != [] ==> tokens[0].indent <= indent)
    ensures BlockExtent(Print(pen, tokens), indent) == 0
  {
    if tokens != [] {
      FirstPrinted(pen, tokens);
    }
  }

  lemma ExtentStep(pen: Pen, tokens: seq<Line>, indent: nat)
    requires tokens != [] && TokenOk(tokens[0]) && tokens[0].indent > indent && !pen.guarded
    ensures var lines, later := Print(pen, tokens), Print(pen, tokens[1..]);
            lines[BlockExtent(lines, indent)..] == later[BlockExtent(later, indent)..]
  {
    var later := Print(pen, tokens[1..]);
    LineDeeper(pen, tokens[0], indent);
    ExtentPasses(PrintLine(pen, tokens[0]), later, indent);
    assert [] + later == later;
    DropPrefix(PrintLine(pen, tokens[0]), later, BlockExtent(later, indent));
  }

  /** A block takes every following line up to one no deeper than its own: nothing of a token is left over. */
  lemma {:induction false} ExtentOfTokens(pen: Pen, tokens: seq<Line>, indent: nat) returns (k: nat)
    requires AllOk(tokens) && !pen.guarded
    ensures k <= |tokens| && (tokens != [] && tokens[0].indent > indent ==> k > 0)
    ensures var lines := Print(pen, tokens); lines[BlockExtent(lines, indent)..] == Print(pen, tokens[k..])
  {
    hide BlockExtent, Print;
    if tokens == [] || tokens[0].indent <= indent {
      ExtentStops(pen, tokens, indent);
      k := 0;
      assert tokens[0..] == tokens;
    } else {
      var rest := ExtentOfTokens(pen, tokens[1..], indent);
      ExtentStep(pen, tokens, indent);
      k := rest + 1;
      assert tokens[1..][rest..] == tokens[k..];
    }
  }

  /** What a swallowing line is read as does not matter; how much it takes does. */
  lemma SwallowingStep(pen: Pen, tokens: seq<Line>) returns (k: nat)
    requires AllOk(tokens) && !pen.guarded && Swallows(tokens)
    ensures 1 < k <= |tokens|
    ensures var r, rest := Tokens(Print(pen, tokens)), Tokens(Print(pen, tokens[k..]));
            r.Ok? == rest.Ok? && (r.Ok? ==> |r.value| == |rest.value| + 1)
  {
    var t, later := tokens[0], Print(pen, tokens[1..]);
    var head, block, raw := t.text[..|t.text| - 1], BlockLines(t), PrintLine(pen, t) + later;
    assert Print(pen, tokens) == raw by { assert [] + later == later; }
    var n := ExtentOfTokens(pen, tokens[1..], t.indent);
    k := n + 1;
    assert tokens[1..][n..] == tokens[k..];
    BlockParts(pen, t, later);
    MarkedLine(pen, t);
    IndentedAll(SplitFeeds(t.block.value), t.indent + 4);
    ExtentPasses(block, later, t.indent);
    var extent := BlockExtent(raw[1..], t.indent);
    assert raw[1..][extent..] == later[BlockExtent(later, t.indent)..];
    BlockStep(raw, t.indent, head, Marker(pen, t), extent, BlockText(raw[1..][..extent], t.indent));
  }

  lemma {:induction false} PlainTokens(pen: Pen, tokens: seq<Line>)
    requires AllOk(tokens) && !pen.guarded
    ensures var r := Tokens(Print(pen, tokens));
            r.Ok? && (if Quiet(tokens) then r.value == tokens else |r.value| < |tokens|)
    decreases |tokens|
  {
    hide Tokens, Print;
    if tokens == [] {
      NothingPrinted(pen);
    } else {
      QuietRest(tokens);
      if Swallows(tokens) {
        var k := SwallowingStep(pen, tokens);
        PlainTokens(pen, tokens[k..]);
      } else {
        PrintStep(pen, tokens);
        PlainTokens(pen, tokens[1..]);
        assert tokens == [tokens[0]] + tokens[1..];
      }
    }
  }

  // ----- every token is one field or one item -----

  /** How many lines render what is below a field of this value, these fields, or these items. */
  function BelowSize(v: Value): nat
    decreases v, 1
  {
    match v case Scalar(_) => 0 case Mapping(fields) => FieldsSize(fields) case Sequence(items) => ItemsSize(items)
  }

  function FieldsSize(fields: seq<Field>): nat
    decreases fields, 2
  {
    if fields == [] then 0 else 1 + BelowSize(fields[0].value) + FieldsSize(fields[1..])
  }

  function ItemsSize(items: seq<Value>): nat
    decreases items, 3
  {
    if items == [] then 0 else (if items[0].Mapping? then FieldsSize(items[0].fields) else 1) + ItemsSize(items[1..])
  }

  lemma {:induction false} FieldsSizeSnoc(fields: seq<Field>, f: Field)
    ensures FieldsSize(fields + [f]) == FieldsSize(fields) + 1 + BelowSize(f.value)
  {
    if fields == [] {
      assert [] + [f] == [f] && [f][1..] == [];
    } else {
      FieldsSizeSnoc(fields[1..], f);
      assert (fields + [f])[1..] == fields[1..] + [f];
    }
  }

  lemma {:induction false} ItemsSizeSnoc(items: seq<Value>, v: Value)
    ensures ItemsSize(items + [v]) == ItemsSize(items) + (if v.Mapping? then FieldsSize(v.fields) else 1)
  {
    if items == [] {
      assert [] + [v] == [v] && [v][1..] == [];
    } else {
      ItemsSizeSnoc(items[1..], v);
      assert (items + [v])[1..] == items[1..] + [v];
    }
  }

  lemma {:induction false} NodeSize(lines: seq<Line>, indent: nat)
    requires lines != [] && Node(lines, indent).Ok?
    ensures var r := Node(lines, indent).value; !r.0.Scalar? && |lines| == |r.1| + BelowSize(r.0)
    decreases |lines|, 2
  {
    if Dash(lines[0].text) {
      ItemsCount(lines, indent, []);
    } else {
      FieldsCount(lines, indent, []);
    }
  }

  lemma {:induction false} ValueSize(block: Option<string>, raw: string, rest: seq<Line>, indent: nat)
    requires FieldValue(block, raw, rest, indent).Ok?
    ensures var r := FieldValue(block, raw, rest, indent).value; |rest| == |r.1| + BelowSize(r.0)
    decreases |rest|, 3
  {
    if block.None? && raw == "" && rest != [] && rest[0].indent > indent {
      NodeSize(rest, rest[0].indent);
    }
  }

  lemma {:induction false} FieldsCount(lines: seq<Line>, indent: nat, done: seq<Field>)
    requires Fields(lines, indent, done).Ok?
    ensures var r := Fields(lines, indent, done).value; |lines| + FieldsSize(done) == |r.1| + FieldsSize(r.0)
    decreases |lines|, 1
  {
    if lines != [] && lines[0].indent == indent && !Dash(lines[0].text) {
      var e := Entry(lines[0].text).value;
      var v := FieldValue(lines[0].block, e.1, lines[1..], indent).value;
      ValueSize(lines[0].block, e.1, lines[1..], indent);
      FieldsSizeSnoc(done, Field(e.0, v.0));
      FieldsCount(v.1, indent, done + [Field(e.0, v.0)]);
    }
  }

  lemma {:induction false} ItemCount(line: Line, remainder: string, rest: seq<Line>, indent: nat)
    requires MappingItem(line, remainder, rest, indent).Ok?
    ensures var r := MappingItem(line, remainder, rest, indent).value;
            r.0.Mapping? && |rest| + 1 == |r.1| + FieldsSize(r.0.fields)
    decreases |rest|, 4
  {
    var e := Entry(remainder).value;
    var v := FieldValue(line.block, e.1, rest, indent + 2).value;
    ValueSize(line.block, e.1, rest, indent + 2);
    var tail := Tail(v.1, indent + 2).value;
    if v.1 != [] && v.1[0].indent == indent + 2 {
      NodeSize(v.1, indent + 2);
    }
    assert ([Field(e.0, v.0)] + tail.0)[1..] == tail.0;
  }

  lemma {:induction false} ItemsCount(lines: seq<Line>, indent: nat, done: seq<Value>)
    requires Items(lines, indent, done).Ok?
    ensures var r := Items(lines, indent, done).value; |lines| + ItemsSize(done) == |r.1| + ItemsSize(r.0)
    decreases |lines|, 1
  {
    if lines != [] && lines[0].indent == indent && Dash(lines[0].text) {
      var remainder := Strip(lines[0].text[2..]);
      if ':' !in remainder {
        var v := Scalar(PlainScalar(remainder).value);
        ItemsSizeSnoc(done, v);
        ItemsCount(lines[1..], indent, done + [v]);
      } else {
        var r := MappingItem(lines[0], remainder, lines[1..], indent).value;
        ItemCount(lines[0], remainder, lines[1..], indent);
        ItemsSizeSnoc(done, r.0);
        ItemsCount(r.1, indent, done + [r.0]);
      }
    }
  }

  lemma {:induction false} BelowLength(w: Written, nest: nat)
    requires Sayable(w)
    ensures |Below(w, nest)| == BelowSize(Meaning(w))
    decreases w, 1
  {
    match w
    case WScalar(_, _) =>
    case WMapping(fields) => FieldsLength(fields, nest);
    case WSequence(items) => ItemsLength(items, nest);
  }

  lemma {:induction false} FieldsLength(fields: seq<WField>, indent: nat)
    requires SayableFields(fields)
    ensures |FieldsLines(fields, indent)| == FieldsSize(FieldMeanings(fields))
    decreases fields, 2
  {
    if fields != [] {
      BelowLength(fields[0].value, indent + 2);
      FieldsLength(fields[1..], indent);
    }
  }

  lemma {:induction false} ItemsLength(items: seq<Written>, indent: nat)
    requires SayableItems(items)
    ensures |ItemsLines(items, indent)| == ItemsSize(ItemMeanings(items))
    decreases items, 3
  {
    if items != [] {
      SayableItemsSplit(items);
      ItemsLength(items[1..], indent);
      assert ItemMeanings(items)[1..] == ItemMeanings(items[1..]);
      if items[0].WMapping? { ItemLength(items[0].fields, indent); }
    }
  }

  lemma {:induction false} ItemLength(fields: seq<WField>, indent: nat)
    requires SayableItem(WMapping(fields))
    ensures |ItemLines(WMapping(fields), indent)| == FieldsSize(FieldMeanings(fields))
    decreases fields, 2
  {
    SayableItemFields(fields);
    BelowLength(fields[0].value, indent + 4);
    FieldsLength(fields[1..], indent + 2);
    MeaningsSplit(fields);
  }

  // ----- values and lines -----

  lemma QuietJoins(a: seq<Line>, b: seq<Line>)
    ensures Quiet(a + b) <==> Quiet(a) && Quiet(b) && (a != [] && b != [] ==> !Swallows([a[|a| - 1]] + [b[0]]))
  {
    var whole := a + b;
    assert forall i: nat :: SwallowsAt(a, i) ==> SwallowsAt(whole, i);
    assert forall i: nat :: SwallowsAt(b, i) ==> SwallowsAt(whole, |a| + i);
    assert forall i: nat :: i >= |a| && SwallowsAt(whole, i) ==> SwallowsAt(b, i - |a|);
    assert forall i: nat :: i + 1 < |a| && SwallowsAt(whole, i) ==> SwallowsAt(a, i);
    if a != [] && b != [] {
      var pair := [a[|a| - 1]] + [b[0]];
      assert Swallows(pair) <==> SwallowsAt(whole, |a| - 1);
    }
  }

  predicate Deep(tokens: seq<Line>, indent: nat) { forall i :: 0 <= i < |tokens| ==> tokens[i].indent >= indent }

  /** The lines of a field: its own, those below it, and those of the fields after it. */
  lemma GroupQuiet(head: Line, below: seq<Line>, later: seq<Line>, nest: nat)
    requires Deep(below, nest) && (later != [] ==> later[0].indent <= nest)
    requires head.indent <= nest && Deep(later, head.indent)
    requires head.block.Some? ==> below == []
    ensures Deep([head] + (below + later), head.indent)
    ensures Quiet([head] + (below + later)) <==>
            Quiet(below) && Quiet(later)
            && (head.block.Some? && later != [] ==> later[0].indent <= head.indent)
  {
    QuietJoins(below, later);
    QuietJoins([head], below + later);
    assert !SwallowsAt([head], 0);
    if below == [] {
      assert below + later == later;
    }
  }

  lemma DeepWeakens(tokens: seq<Line>, indent: nat, outer: nat)
    requires outer <= indent
    ensures Deep(tokens, indent) ==> Deep(tokens, outer)
  {}

  lemma FieldsFirst(fields: seq<WField>, indent: nat)
    ensures fields != [] ==> FieldsLines(fields, indent) != [] && FieldsLines(fields, indent)[0].indent == indent
    ensures fields == [] ==> FieldsLines(fields, indent) == []
  {}

  lemma ItemsFirst(items: seq<Written>, indent: nat)
    requires SayableItems(items)
    ensures items != [] ==> ItemsLines(items, indent) != [] && ItemsLines(items, indent)[0].indent == indent
  {
    if items != [] {
      SayableItemsSplit(items);
      ItemsStart(items, indent, []);
      assert ItemsLines(items, indent) + [] == ItemsLines(items, indent);
    }
  }

  lemma {:induction false} BelowQuiet(w: Written, nest: nat)
    requires Sayable(w)
    ensures Deep(Below(w, nest), nest) && (Quiet(Below(w, nest)) <==> Guardless(w))
    decreases w, 1
  {
    match w
    case WScalar(_, _) =>
    case WMapping(fields) => FieldsQuiet(fields, nest);
    case WSequence(items) => ItemsQuiet(items, nest);
  }

  lemma GuardlessSplit(fields: seq<WField>)
    requires fields != []
    ensures GuardlessFields(fields) <==> Guardless(fields[0].value) && GuardlessFields(fields[1..])
  {
    assert forall i :: 0 < i < |fields| ==> fields[i] == fields[1..][i - 1];
  }

  lemma GuardlessItemsSplit(items: seq<Written>)
    requires items != []
    ensures GuardlessItems(items) <==> GuardlessItem(items[0]) && GuardlessItems(items[1..])
  {
    assert forall i :: 0 < i < |items| ==> items[i] == items[1..][i - 1];
  }

  lemma {:induction false} FieldsQuiet(fields: seq<WField>, indent: nat)
    requires SayableFields(fields)
    ensures Deep(FieldsLines(fields, indent), indent)
    ensures Quiet(FieldsLines(fields, indent)) <==> GuardlessFields(fields)
    decreases fields, 2
  {
    if fields == [] {
      assert Quiet(FieldsLines(fields, indent));
    } else {
      hide Quiet, HeadText, Sayable;
      var f, later := fields[0], FieldsLines(fields[1..], indent);
      FieldsQuiet(fields[1..], indent);
      BelowQuiet(f.value, indent + 2);
      FieldsFirst(fields[1..], indent);
      GroupQuiet(Line(indent, HeadText(f), HeadBlock(f.value)), Below(f.value, indent + 2), later, indent + 2);
      GuardlessSplit(fields);
    }
  }

  lemma {:induction false} ItemQuiet(w: Written, indent: nat)
    requires SayableItem(w)
    ensures Deep(ItemLines(w, indent), indent) && (Quiet(ItemLines(w, indent)) <==> GuardlessItem(w))
    decreases w, 3
  {
    if w.WScalar? {
      assert Quiet(ItemLines(w, indent));
    } else {
      hide Quiet, HeadText, Sayable;
      SayableItemFields(w.fields);
      var f, later := w.fields[0], FieldsLines(w.fields[1..], indent + 2);
      DeepWeakens(later, indent + 2, indent);
      FieldsQuiet(w.fields[1..], indent + 2);
      BelowQuiet(f.value, indent + 4);
      FieldsFirst(w.fields[1..], indent + 2);
      GroupQuiet(Line(indent, "- " + HeadText(f), HeadBlock(f.value)), Below(f.value, indent + 4), later, indent + 4);
      GuardlessSplit(w.fields);
    }
  }

  lemma {:induction false} ItemsQuiet(items: seq<Written>, indent: nat)
    requires SayableItems(items)
    ensures Deep(ItemsLines(items, indent), indent) && (Quiet(ItemsLines(items, indent)) <==> GuardlessItems(items))
    decreases items, 4
  {
    if items != [] {
      SayableItemsSplit(items);
      ItemQuiet(items[0], indent);
      ItemsQuiet(items[1..], indent);
      ItemsFirst(items[1..], indent);
      QuietJoins(ItemLines(items[0], indent), ItemsLines(items[1..], indent));
      GuardlessItemsSplit(items);
    }
  }

  // ----- the theorem -----

  /** Without guard comments a rendering reads back exactly when no item of a sequence starts with a
      block and has further fields: otherwise the block takes those fields for its own text. */
  lemma PlainRoundTripIff(pen: Pen, w: Written)
    requires w.WMapping? && Sayable(w) && !pen.guarded
    ensures Parse(Render(pen, w)) == Ok(Meaning(w)) <==> Guardless(w)
  {
    hide Sayable, Guardless;
    var lines := FieldsLines(w.fields, 0);
    assert SayableFields(w.fields) by { SayableFieldsOf(w); }
    FieldsOk(w.fields, 0);
    PrintedUnbroken(pen, lines);
    SplitEnded(Print(pen, lines));
    FieldsQuiet(w.fields, 0);
    GuardlessOf(w);
    PlainTokens(pen, lines);
    TokensParse(w);
    FieldsLength(w.fields, 0);
    var read := Tokens(Print(pen, lines)).value;
    if ParseTokens(read) == Ok(Meaning(w)) {
      NodeSize(read, 0);
    }
  }

  lemma SayableFieldsOf(w: Written)
    requires w.WMapping? && Sayable(w)
    ensures SayableFields(w.fields)
  {}

  lemma GuardlessOf(w: Written)
    requires w.WMapping?
    ensures Guardless(w) <==> GuardlessFields(w.fields)
  {}
}
