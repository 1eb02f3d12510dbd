/** Parsing undoes printing. */
module YamlRoundTrip {
  import opened YamlText
  import opened YamlParser
  import opened YamlRender

  // ----- one line -----

  lemma {:induction false} BeforeColonAt(key: string, rest: string)
    requires ':' !in key
    ensures BeforeColon(key + ":" + rest) == key
  {
    if key == "" {
      assert ("" + ":" + rest)[0] == ':';
    } else {
      assert (key + ":" + rest)[1..] == key[1..] + ":" + rest;
      BeforeColonAt(key[1..], rest);
      assert key == [key[0]] + key[1..];
    }
  }

  lemma StripsNothing(s: string)
    requires s != "" && !Whitespace(s[0]) && !Whitespace(s[|s| - 1])
    ensures RStrip(s) == s && LStrip(s) == s && Strip(s) == s
  {}

  lemma StripsSpace(s: string)
    requires s != "" && !Whitespace(s[0]) && !Whitespace(s[|s| - 1])
    ensures Strip(" " + s) == s
  {
    var spaced := " " + s;
    assert spaced[|spaced| - 1] == s[|s| - 1];
    assert RStrip(spaced) == spaced && spaced[1..] == s;
    StripsNothing(s);
  }

  lemma KeyPlain(key: string)
    requires ValidKey(key)
    ensures ':' !in key && '\n' !in key && Unbroken(key) && !Whitespace(key[0]) && key[0] != '-' && key[0] != '#'
  {}

  /** Quotes of either kind are alike to what the parser refuses. */
  lemma QuotesAlike(s: string)
    ensures Refused("'" + s + "'") <==> Refused(Quoted(s))
  {
    var a, b := "'" + s + "'", Quoted(s);
    assert forall c :: c == '#' || c == '\\' ==> (c in a <==> c in s) && (c in b <==> c in s);
    assert |a| == |b| && forall i :: 0 < i < |a| - 1 ==> a[i] == b[i] == s[i - 1];
    forall i | 0 <= i < |a| ensures NodeAt(a, i) <==> NodeAt(b, i) {
      assert i == 1 ==> !Boundary(a[0]) && !Boundary(b[0]);
    }
  }

  /** What a style that fits writes on a line is read as the text. */
  lemma SpelledReads(style: Style, s: string)
    requires style != Block && (Fits(style, s) || FitsItem(style, s))
    ensures PlainScalar(Spell(style, s)) == Ok(s) && Strip(Spell(style, s)) == Spell(style, s)
    ensures Spell(style, s) == "" ==> s == ""
    ensures Spell(style, s) != "" ==>
              !Whitespace(Spell(style, s)[0]) && !Whitespace(Spell(style, s)[|Spell(style, s)| - 1])
  {
    var raw := Spell(style, s);
    QuotesAlike(s);
    if raw != "" { StripsNothing(raw); }
  }

  lemma EntryReads(f: WField)
    requires ValidKey(f.key) && Sayable(f.value)
    ensures Entry(HeadText(f)) == Ok((f.key, RawText(f.value)))
  {
    KeyPlain(f.key);
    var text, after := HeadText(f), HeadText(f)[|f.key| + 1..];
    BeforeColonAt(f.key, after);
    assert text == f.key + ":" + after;
    if RawText(f.value) != "" {
      SpelledReads(f.value.style, f.value.text);
      StripsSpace(RawText(f.value));
    }
  }

  lemma RawEnds(w: Written)
    requires Sayable(w)
    ensures RawText(w) != "" ==> !Whitespace(RawText(w)[|RawText(w)| - 1])
  {
    if w.WScalar? && w.style != Block { SpelledReads(w.style, w.text); }
  }

  lemma HeadReads(f: WField)
    requires ValidKey(f.key) && Sayable(f.value)
    ensures var text := HeadText(f);
            && text != "" && text[0] == f.key[0] && ':' in text && !Whitespace(text[0]) && !Whitespace(text[|text| - 1])
            && !Dash(text)
    ensures Dash("- " + HeadText(f)) && Strip(("- " + HeadText(f))[2..]) == HeadText(f)
  {
    hide Sayable, RawText, Strip;
    KeyPlain(f.key);
    var text := HeadText(f);
    RawEnds(f.value);
    assert text[|f.key|] == ':';
    assert RawText(f.value) != "" ==> text[|text| - 1] == RawText(f.value)[|RawText(f.value)| - 1];
    StripsNothing(text);
    assert ("- " + text)[2..] == text;
  }

  // ----- where lists of lines begin and stop -----

  predicate Stops(rest: seq<Line>, indent: nat) { rest != [] ==> rest[0].indent < indent }

  lemma FieldsStop(fields: seq<WField>, indent: nat, rest: seq<Line>, nest: nat)
    requires Stops(rest, indent + 1) && indent < nest
    ensures Stops(FieldsLines(fields, indent) + rest, nest)
  {
    if fields == [] {
      assert FieldsLines(fields, indent) + rest == rest;
    }
  }

  lemma HeadAndRest<T>(x: T, a: seq<T>, b: seq<T>, rest: seq<T>)
    ensures var all := [x] + (a + b) + rest; all[0] == x && all[1..] == a + (b + rest)
  {}

  lemma FieldsSplit(fields: seq<WField>, indent: nat, rest: seq<Line>)
    requires fields != []
    ensures var lines, f := FieldsLines(fields, indent) + rest, fields[0];
            && lines != [] && lines[0] == Line(indent, HeadText(f), HeadBlock(f.value))
            && lines[1..] == Below(f.value, indent + 2) + (FieldsLines(fields[1..], indent) + rest)
  {
    var f := fields[0];
    HeadAndRest(Line(indent, HeadText(f), HeadBlock(f.value)), Below(f.value, indent + 2),
                FieldsLines(fields[1..], indent), rest);
  }

  lemma ItemSplit(fields: seq<WField>, indent: nat, rest: seq<Line>)
    requires fields != []
    ensures var lines, f := ItemLines(WMapping(fields), indent) + rest, fields[0];
            && lines != [] && lines[0] == Line(indent, "- " + HeadText(f), HeadBlock(f.value))
            && lines[1..] == Below(f.value, indent + 4) + (FieldsLines(fields[1..], indent + 2) + rest)
  {
    var f := fields[0];
    HeadAndRest(Line(indent, "- " + HeadText(f), HeadBlock(f.value)), Below(f.value, indent + 4),
                FieldsLines(fields[1..], indent + 2), rest);
  }

  lemma ItemsSplit(items: seq<Written>, indent: nat, rest: seq<Line>)
    requires items != []
    ensures ItemsLines(items, indent) + rest == ItemLines(items[0], indent) + (ItemsLines(items[1..], indent) + rest)
  {}

  lemma SayableItemFields(fields: seq<WField>)
    requires SayableItem(WMapping(fields))
    ensures fields != [] && SayableFields(fields) && SayableFields(fields[1..])
    ensures ValidKey(fields[0].key) && Sayable(fields[0].value)
  {
    assert Sayable(WMapping(fields));
  }

  lemma ItemsStart(items: seq<Written>, indent: nat, rest: seq<Line>)
    requires items != [] && SayableItem(items[0])
    ensures var lines := ItemsLines(items, indent) + rest;
            lines != [] && lines[0].indent == indent && Dash(lines[0].text)
  {
    ItemsSplit(items, indent, rest);
    if items[0].WMapping? {
      SayableItemFields(items[0].fields);
      ItemSplit(items[0].fields, indent, ItemsLines(items[1..], indent) + rest);
    }
  }

  lemma ItemsStop(items: seq<Written>, indent: nat, rest: seq<Line>, nest: nat)
    requires Stops(rest, indent + 1) && indent < nest && (items != [] ==> SayableItem(items[0]))
    ensures Stops(ItemsLines(items, indent) + rest, nest)
  {
    if items != [] {
      ItemsStart(items, indent, rest);
    } else {
      assert ItemsLines(items, indent) + rest == rest;
    }
  }

  // ----- single steps of the parser -----

  function MeaningOf(f: WField): Field { Field(f.key, Meaning(f.value)) }

  lemma FieldStep(lines: seq<Line>, indent: nat, done: seq<Field>, f: WField, rest: seq<Line>)
    requires ValidKey(f.key) && Sayable(f.value) && !Has(done, f.key) && lines != []
    requires lines[0] == Line(indent, HeadText(f), HeadBlock(f.value))
    requires FieldValue(HeadBlock(f.value), RawText(f.value), lines[1..], indent) == Ok((Meaning(f.value), rest))
    ensures |rest| < |lines| && Fields(lines, indent, done) == Fields(rest, indent, done + [MeaningOf(f)])
  {
    EntryReads(f);
    HeadReads(f);
  }

  lemma ScalarStep(lines: seq<Line>, indent: nat, done: seq<Value>, style: Style, text: string)
    requires lines != [] && lines[0].indent == indent && lines[0].text == "- " + Spell(style, text)
    requires FitsItem(style, text)
    ensures Items(lines, indent, done) == Items(lines[1..], indent, done + [Scalar(text)])
  {
    var raw := Spell(style, text);
    SpelledReads(style, text);
    assert ':' !in raw by { assert forall c :: c in raw ==> c == '"' || c == '\'' || c in text; }
    assert lines[0].text[2..] == raw;
    hide Spell, FitsItem, PlainScalar, Strip;
  }

  lemma MappingStep(lines: seq<Line>, indent: nat, done: seq<Value>, f: WField, others: seq<Field>,
                    after: seq<Line>, rest: seq<Line>)
    requires ValidKey(f.key) && Sayable(f.value) && DistinctKeys([MeaningOf(f)] + others) && lines != []
    requires lines[0] == Line(indent, "- " + HeadText(f), HeadBlock(f.value))
    requires FieldValue(HeadBlock(f.value), RawText(f.value), lines[1..], indent + 2) == Ok((Meaning(f.value), after))
    requires Tail(after, indent + 2) == Ok((others, rest))
    ensures |rest| < |lines|
    ensures Items(lines, indent, done) == Items(rest, indent, done + [Mapping([MeaningOf(f)] + others)])
  {
    EntryReads(f);
    HeadReads(f);
    assert MappingItem(lines[0], HeadText(f), lines[1..], indent) == Ok((Mapping([MeaningOf(f)] + others), rest));
  }

  // ----- meanings of lists -----

  lemma {:induction false} MeaningsAt(fields: seq<WField>)
    ensures forall i :: 0 <= i < |fields| ==> FieldMeanings(fields)[i] == MeaningOf(fields[i])
  {
    if fields != [] {
      MeaningsAt(fields[1..]);
      assert forall i :: 0 < i < |fields| ==> fields[i] == fields[1..][i - 1];
    }
  }

  lemma MeaningsSplit(fields: seq<WField>)
    requires fields != []
    ensures FieldMeanings(fields) == [MeaningOf(fields[0])] + FieldMeanings(fields[1..])
  {}

  lemma MeaningsDistinct(fields: seq<WField>)
    requires SayableFields(fields)
    ensures DistinctKeys(FieldMeanings(fields))
  {
    MeaningsAt(fields);
  }

  // ----- tokens to values -----

  lemma ScalarParses(w: Written, at: nat, rest: seq<Line>)
    requires w.WScalar? && Sayable(w) && Stops(rest, at + 1)
    ensures FieldValue(HeadBlock(w), RawText(w), rest, at) == Ok((Scalar(w.text), rest))
  {
    hide Fits, PlainScalar, Strip, Spell;
    if w.style != Block { SpelledReads(w.style, w.text); }
    BlockSpells();
  }

  lemma BlockSpells()
    ensures forall s :: Spell(Block, s) == ""
  {}

  /** Below its first line, a field is read back as what it means. */
  lemma {:induction false} ValueParses(w: Written, nest: nat, at: nat, rest: seq<Line>)
    requires Sayable(w) && at < nest && Stops(rest, at + 1)
    ensures FieldValue(HeadBlock(w), RawText(w), Below(w, nest) + rest, at) == Ok((Meaning(w), rest))
    decreases w, 1
  {
    hide Fits, Spell;
    var lines := Below(w, nest) + rest;
    match w
    case WScalar(_, _) =>
      assert lines == rest;
      ScalarParses(w, at, rest);
    case WMapping(fields) =>
      NodeParses(fields, nest, rest);
    case WSequence(items) =>
      ItemsStart(items, nest, rest);
      ItemsParse(items, nest, [], rest);
      assert [] + ItemMeanings(items) == ItemMeanings(items);
  }

  predicate NewKeys(fields: seq<WField>, done: seq<Field>) {
    forall i :: 0 <= i < |fields| ==> !Has(done, fields[i].key)
  }

  lemma NewKeysStep(fields: seq<WField>, done: seq<Field>)
    requires fields != [] && SayableFields(fields) && NewKeys(fields, done)
    ensures NewKeys(fields[1..], done + [MeaningOf(fields[0])]) && !Has(done, fields[0].key)
    ensures SayableFields(fields[1..])
    ensures done + [MeaningOf(fields[0])] + FieldMeanings(fields[1..]) == done + FieldMeanings(fields)
  {
    hide Sayable;
    MeaningsSplit(fields);
    var m := MeaningOf(fields[0]);
    assert done + [m] + FieldMeanings(fields[1..]) == done + ([m] + FieldMeanings(fields[1..]));
  }

  lemma {:induction false} FieldsParse(fields: seq<WField>, indent: nat, done: seq<Field>, rest: seq<Line>)
    requires SayableFields(fields) && NewKeys(fields, done) && Stops(rest, indent)
    ensures Fields(FieldsLines(fields, indent) + rest, indent, done) == Ok((done + FieldMeanings(fields), rest))
    decreases fields, 2
  {
    var lines := FieldsLines(fields, indent) + rest;
    if fields == [] {
      assert lines == rest && done + FieldMeanings(fields) == done;
    } else {
      var f, later := fields[0], FieldsLines(fields[1..], indent) + rest;
      FieldsSplit(fields, indent, rest);
      FieldsStop(fields[1..], indent, rest, indent + 1);
      ValueParses(f.value, indent + 2, indent, later);
      NewKeysStep(fields, done);
      FieldStep(lines, indent, done, f, later);
      FieldsParse(fields[1..], indent, done + [MeaningOf(f)], rest);
    }
  }

  lemma {:induction false} NodeParses(fields: seq<WField>, indent: nat, rest: seq<Line>)
    requires fields != [] && SayableFields(fields) && Stops(rest, indent)
    ensures var lines := FieldsLines(fields, indent) + rest;
            && lines != [] && lines[0].indent == indent
            && Node(lines, indent) == Ok((Mapping(FieldMeanings(fields)), rest))
    decreases fields, 3
  {
    hide Fields, Sayable, RawText;
    FieldsSplit(fields, indent, rest);
    HeadReads(fields[0]);
    FieldsParse(fields, indent, [], rest);
    assert [] + FieldMeanings(fields) == FieldMeanings(fields);
  }

  lemma {:induction false} TailParses(fields: seq<WField>, indent: nat, rest: seq<Line>)
    requires SayableFields(fields) && Stops(rest, indent)
    ensures Tail(FieldsLines(fields, indent) + rest, indent) == Ok((FieldMeanings(fields), rest))
    decreases fields, 4
  {
    if fields == [] {
      assert FieldsLines(fields, indent) + rest == rest;
    } else {
      NodeParses(fields, indent, rest);
    }
  }

  lemma {:induction false} MappingItemParses(fields: seq<WField>, indent: nat, done: seq<Value>, rest: seq<Line>)
    requires SayableItem(WMapping(fields)) && Stops(rest, indent + 1)
    ensures var lines := ItemLines(WMapping(fields), indent) + rest;
            && |rest| < |lines|
            && Items(lines, indent, done) == Items(rest, indent, done + [Mapping(FieldMeanings(fields))])
    decreases fields, 5
  {
    SayableItemFields(fields);
    var f, later := fields[0], FieldsLines(fields[1..], indent + 2) + rest;
    ItemSplit(fields, indent, rest);
    FieldsStop(fields[1..], indent + 2, rest, indent + 3);
    ValueParses(f.value, indent + 4, indent + 2, later);
    TailParses(fields[1..], indent + 2, rest);
    MeaningsSplit(fields);
    MeaningsDistinct(fields);
    MappingStep(ItemLines(WMapping(fields), indent) + rest, indent, done, f, FieldMeanings(fields[1..]), later, rest);
  }

  lemma {:induction false} ItemParses(item: Written, indent: nat, done: seq<Value>, rest: seq<Line>)
    requires SayableItem(item) && Stops(rest, indent + 1)
    ensures var lines := ItemLines(item, indent) + rest;
            |rest| < |lines| && Items(lines, indent, done) == Items(rest, indent, done + [Meaning(item)])
    decreases item, 0
  {
    if item.WScalar? {
      var lines := ItemLines(item, indent) + rest;
      assert lines[1..] == rest;
      ScalarStep(lines, indent, done, item.style, item.text);
    } else {
      MappingItemParses(item.fields, indent, done, rest);
    }
  }

  lemma SayableItemsSplit(items: seq<Written>)
    requires items != [] && SayableItems(items)
    ensures SayableItem(items[0]) && SayableItems(items[1..])
  {}

  lemma SnocCons(done: seq<Value>, items: seq<Written>)
    requires items != []
    ensures done + [Meaning(items[0])] + ItemMeanings(items[1..]) == done + ItemMeanings(items)
  {}

  lemma {:induction false} ItemsParse(items: seq<Written>, indent: nat, done: seq<Value>, rest: seq<Line>)
    requires SayableItems(items) && Stops(rest, indent)
    ensures Items(ItemsLines(items, indent) + rest, indent, done) == Ok((done + ItemMeanings(items), rest))
    decreases items, 6
  {
    if items == [] {
      assert ItemsLines(items, indent) + rest == rest && done + ItemMeanings(items) == done;
    } else {
      SayableItemsSplit(items);
      ItemsSplit(items, indent, rest);
      if items[1..] != [] { SayableItemsSplit(items[1..]); }
      ItemsStop(items[1..], indent, rest, indent + 1);
      ItemParses(items[0], indent, done, ItemsLines(items[1..], indent) + rest);
      ItemsParse(items[1..], indent, done + [Meaning(items[0])], rest);
      SnocCons(done, items);
    }
  }

  lemma TokensParse(w: Written)
    requires w.WMapping? && Sayable(w)
    ensures ParseTokens(FieldsLines(w.fields, 0)) == Ok(Meaning(w))
  {
    var lines := FieldsLines(w.fields, 0);
    assert lines + [] == lines;
    NodeParses(w.fields, 0, []);
  }
}
