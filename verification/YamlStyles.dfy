/** Exactly which texts each style can say (workflow_yaml_parser.py:70-121, 129-137, 140-192). */
module YamlStyles {
  import opened YamlText
  import opened YamlParser
  import opened YamlRender
  import opened YamlRoundTrip
  import opened YamlPrint
  import opened YamlRange

  // ----- the first line of a text -----

  lemma {:induction false} RStripAfter(front: string, tail: string)
    requires front != "" && !Whitespace(front[|front| - 1])
    ensures RStrip(front + tail) == front + RStrip(tail)
  {
    if tail == "" {
      assert front + tail == front;
      RStripKeeps(front);
    } else if Whitespace(tail[|tail| - 1]) {
      assert (front + tail)[..|front + tail| - 1] == front + tail[..|tail| - 1];
      RStripAfter(front, tail[..|tail| - 1]);
    } else {
      RStripKeeps(front + tail);
      RStripKeeps(tail);
    }
  }

  lemma RStripTwice(s: string)
    ensures RStrip(RStrip(s)) == RStrip(s)
  {
    if RStrip(s) != "" { RStripKeeps(RStrip(s)); }
  }

  /** A line of a key reads as that key and what is left of the rest without blanks around it. */
  lemma EntryOfLine(key: string, tail: string)
    requires ValidKey(key)
    ensures RStrip(key + ":" + tail) == key + ":" + RStrip(tail)
    ensures Entry(key + ":" + RStrip(tail)) == Ok((key, Strip(tail)))
  {
    KeyPlain(key);
    RStripAfter(key + ":", tail);
    RStripTwice(tail);
    BeforeColonAt(key, RStrip(tail));
    assert (key + ":" + RStrip(tail))[|key| + 1..] == RStrip(tail);
  }

  lemma {:induction false} FieldsKeep(lines: seq<Line>, indent: nat, done: seq<Field>)
    requires Fields(lines, indent, done).Ok?
    ensures done <= Fields(lines, indent, done).value.0
    decreases |lines|
  {
    if lines != [] && lines[0].indent == indent && !Dash(lines[0].text) {
      var e := Entry(lines[0].text).value;
      var v := FieldValue(lines[0].block, e.1, lines[1..], indent).value;
      FieldsKeep(v.1, indent, done + [Field(e.0, v.0)]);
    }
  }

  lemma {:induction false} ItemsKeep(lines: seq<Line>, indent: nat, done: seq<Value>)
    requires Items(lines, indent, done).Ok?
    ensures done <= Items(lines, indent, done).value.0
    decreases |lines|
  {
    if lines != [] && lines[0].indent == indent && Dash(lines[0].text) {
      var remainder := Strip(lines[0].text[2..]);
      if ':' !in remainder {
        ItemsKeep(lines[1..], indent, done + [Scalar(PlainScalar(remainder).value)]);
      } else {
        var r := MappingItem(lines[0], remainder, lines[1..], indent).value;
        ItemsKeep(r.1, indent, done + [r.0]);
      }
    }
  }

  /** What can be the value of a field whose line is this: a block, the text left on the line, or what is below. */
  predicate FirstValue(key: string, tail: string, more: seq<string>, v: Value) {
    var text, raw := key + ":" + RStrip(tail), Strip(tail);
    if MarkerLength(text) != 0 then v == Scalar(BlockText(more[..BlockExtent(more, 0)], 0))
    else if raw != "" then PlainScalar(raw).Ok? && v == Scalar(PlainScalar(raw).value)
    else !v.Scalar? || v.text == ""
  }

  lemma KeyLineToken(key: string, tail: string, more: seq<string>)
    requires ValidKey(key) && Tokens([key + ":" + tail] + more).Ok?
    ensures
      var text, tokens := key + ":" + RStrip(tail), Tokens([key + ":" + tail] + more).value;
      var m := MarkerLength(text);
      && tokens != [] && tokens[0].indent == 0
      && (m == 0 ==> tokens[0] == Line(0, text, None))
      && (m != 0 ==> tokens[0] == Line(0, text[..|text| - m] + ":", Some(BlockText(more[..BlockExtent(more, 0)], 0))))
  {
    hide Tokens, MarkerLength, BlockText, BlockExtent, RStrip, Entry;
    var line := key + ":" + tail;
    EntryOfLine(key, tail);
    assert line[0..] == line && ([line] + more)[1..] == more;
    KeyLineStart(key, tail);
    FirstToken([line] + more, 0);
  }

  lemma KeyLineStart(key: string, tail: string)
    requires ValidKey(key)
    ensures
      var line := key + ":" + tail;
      line != "" && Indent(line) == 0 && line[0] != '\t' && line[0] != '#'
  {
    var line := key + ":" + tail;
    KeyPlain(key);
    assert line[0] == key[0];
    IndentUnique(line, 0);
  }

  /** The token of a first line with content. */
  lemma FirstToken(raw: seq<string>, n: nat)
    requires raw != [] && Indent(raw[0]) == n < |raw[0]| && raw[0][n] != '\t' && raw[0][n] != '#' && Tokens(raw).Ok?
    ensures
      var text, tokens := RStrip(raw[0][n..]), Tokens(raw).value;
      var m := MarkerLength(text);
      && tokens != []
      && tokens[0] == if m == 0 then Line(n, text, None)
                      else Line(n, text[..|text| - m] + ":", Some(BlockText(raw[1..][..BlockExtent(raw[1..], n)], n)))
  {
    hide RStrip, MarkerLength, BlockText, BlockExtent, Indent;
  }

  lemma FirstField(key: string, tail: string, more: seq<string>, key1: string, v: Value, others: seq<Field>)
    requires ValidKey(key) && Tokens([key + ":" + tail] + more).Ok?
    requires ParseTokens(Tokens([key + ":" + tail] + more).value) == Ok(Mapping([Field(key1, v)] + others))
    ensures FirstValue(key, tail, more, v)
  {
    hide Tokens, RStrip, MarkerLength, BlockText, BlockExtent, Strip, PlainScalar, Entry;
    KeyPlain(key);
    EntryOfLine(key, tail);
    KeyLineToken(key, tail, more);
    var lines := Tokens([key + ":" + tail] + more).value;
    FirstFieldIs(lines, [Field(key1, v)] + others);
  }

  lemma FirstFieldIs(lines: seq<Line>, fields: seq<Field>)
    requires lines != [] && ParseTokens(lines) == Ok(Mapping(fields)) && fields != []
    ensures
      var e := Entry(lines[0].text);
      e.Ok? && FieldValue(lines[0].block, e.value.1, lines[1..], 0).Ok?
      && fields[0].value == FieldValue(lines[0].block, e.value.1, lines[1..], 0).value.0
  {
    hide Entry, FieldValue;
    var e := Entry(lines[0].text);
    assert lines[0].indent == 0 && Node(lines, 0).Ok? && Node(lines, 0).value.0 == Mapping(fields);
    assert !Dash(lines[0].text);
    assert Fields(lines, 0, []).Ok? && Fields(lines, 0, []).value.0 == fields;
    if e.Ok? && FieldValue(lines[0].block, e.value.1, lines[1..], 0).Ok? {
      var v := FieldValue(lines[0].block, e.value.1, lines[1..], 0).value;
      var first := [Field(e.value.0, v.0)];
      assert [] + first == first && !Has([], e.value.0);
      assert Fields(lines, 0, []) == Fields(v.1, 0, first);
      FieldsKeep(v.1, 0, first);
    }
  }

  // ----- the size of a block -----

  function Size(lines: seq<string>): nat { if lines == [] then 0 else |lines[0]| + 1 + Size(lines[1..]) }

  lemma {:induction false} SplitSize(content: string)
    requires content == "" || LineBreak(content[|content| - 1])
    ensures Size(SplitLines(content)) <= |content|
    decreases |content|
  {
    if content != "" {
      var n := ToBreak(content);
      var width := if content[n] == '\r' && n + 1 < |content| && content[n + 1] == '\n' then 2 else 1;
      var rest := content[n + width..];
      assert rest != "" ==> rest[|rest| - 1] == content[|content| - 1];
      SplitSize(rest);
      assert SplitLines(content) == [content[..n]] + SplitLines(rest);
    }
  }

  lemma {:induction false} JoinSize(cut: seq<string>, raw: seq<string>, n: nat)
    requires n <= |raw| && |cut| == n && forall i :: 0 <= i < n ==> |cut[i]| <= |raw[i]|
    ensures cut != [] ==> |JoinLines(cut)| < Size(raw)
    ensures cut == [] ==> JoinLines(cut) == ""
  {
    if n > 1 {
      JoinSize(cut[1..], raw[1..], n - 1);
    }
  }

  lemma BlockSize(raw: seq<string>, indent: nat)
    ensures var text := BlockText(raw[..BlockExtent(raw, indent)], indent); text == "" || |text| < Size(raw)
  {
    var block := raw[..BlockExtent(raw, indent)];
    JoinSize(CutLines(block, BlockIndent(block, indent + 2)), raw, |block|);
  }

  // ----- where a text breaks -----

  lemma SplitFirst(content: string) returns (rest: string)
    requires ToBreak(content) < |content|
    ensures var n := ToBreak(content);
            && SplitLines(content) == [content[..n]] + SplitLines(rest)
            && |rest| < |content| - n && rest == content[|content| - |rest|..]
  {
    var n := ToBreak(content);
    var width := if content[n] == '\r' && n + 1 < |content| && content[n + 1] == '\n' then 2 else 1;
    rest := content[n + width..];
  }

  lemma BreakThere(s: string)
    requires !Unbroken(s)
    ensures ToBreak(s) < |s|
  {
    var c :| c in s && LineBreak(c);
    var k :| 0 <= k < |s| && s[k] == c;
  }

  lemma BreakAt(s: string, k: nat)
    requires k < |s| && LineBreak(s[k]) && forall i :: 0 <= i < k ==> !LineBreak(s[i])
    ensures ToBreak(s) == k
  {}

  /** The first line of a text whose first break is in this part. */
  lemma SplitAt(front: string, s: string, back: string) returns (rest: string)
    requires Unbroken(front) && !Unbroken(s) && back != "" && LineBreak(back[|back| - 1])
    ensures ToBreak(s) < |s| && Unbroken(s[..ToBreak(s)])
    ensures SplitLines(front + s + back) == [front + s[..ToBreak(s)]] + SplitLines(rest)
    ensures |rest| < |s| - ToBreak(s) + |back| && (rest == "" || LineBreak(rest[|rest| - 1]))
  {
    hide SplitLines;
    var n, content := ToBreak(s), front + s + back;
    BreakThere(s);
    assert forall i :: 0 <= i < |front| ==> content[i] == front[i] && front[i] in front;
    assert forall i :: |front| <= i <= |front| + n ==> content[i] == s[i - |front|];
    BreakAt(content, |front| + n);
    rest := SplitFirst(content);
    assert content[..|front| + n] == front + s[..n];
    assert rest != "" ==> rest[|rest| - 1] == content[|content| - 1] == back[|back| - 1];
  }

  // ----- behind a key -----

  function OneField(key: string, style: Style, s: string): Written { WMapping([WField(key, WScalar(style, s))]) }

  lemma OneFieldMeans(key: string, style: Style, s: string)
    ensures Meaning(OneField(key, style, s)) == Mapping([Field(key, Scalar(s))])
  {
    var fields := [WField(key, WScalar(style, s))];
    assert fields[1..] == [] && FieldMeanings([]) == [];
    assert FieldMeanings(fields) == [Field(key, Scalar(s))];
  }

  lemma OneFieldText(pen: Pen, key: string, style: Style, s: string)
    requires style != Block
    ensures Render(pen, OneField(key, style, s)) ==
            key + ":" + (if Spell(style, s) == "" then "" else " " + Spell(style, s)) + "\n"
  {
    var f := WField(key, WScalar(style, s));
    var line := Line(0, HeadText(f), None);
    assert [f][1..] == [] && FieldsLines([], 0) == [];
    assert FieldsLines([f], 0) == [line];
    assert [line][1..] == [] && Print(pen, []) == [];
    assert Spaces(0) + HeadText(f) == HeadText(f);
    assert Print(pen, [line]) == [HeadText(f)];
    assert [HeadText(f)][1..] == [] && Ended([]) == "";
    assert Ended([HeadText(f)]) == HeadText(f) + "\n" + "";
  }

  predicate QuoteMark(quote: string) { quote == "" || quote == "'" || quote == "\"" }

  lemma ReadsUnbroken(tail: string)
    requires Unbroken(tail)
    ensures PlainScalar(Strip(tail)).Ok? ==> Unbroken(PlainScalar(Strip(tail)).value)
  {
    var i, j := StripPart(tail);
    PartUnbroken(tail, i, j);
    var raw := Strip(tail);
    if |raw| >= 2 { PartUnbroken(raw, 1, |raw| - 1); }
  }

  /** No block is opened by a line that ends in a quote. */
  lemma QuoteOpensNothing(key: string, quote: string)
    requires quote == "'" || quote == "\""
    ensures MarkerLength(key + ":" + RStrip(" " + quote)) == 0
  {
    RStripKeeps(" " + quote);
    var text := key + ":" + (" " + quote);
    assert text[|text| - 1] == quote[0];
    NoMarker(text);
  }

  lemma BrokenValue(key: string, quote: string, s: string, more: seq<string>, rest: string)
    requires !Unbroken(s) && Unbroken(s[..ToBreak(s)]) && QuoteMark(quote) && more == SplitLines(rest)
    requires |rest| < |s| - ToBreak(s) + |quote| + 1 && (rest == "" || LineBreak(rest[|rest| - 1]))
    ensures !FirstValue(key, " " + quote + s[..ToBreak(s)], more, Scalar(s))
  {
    hide SplitLines, BlockText, BlockExtent, PlainScalar, Strip, RStrip, MarkerLength;
    var n := ToBreak(s);
    var tail := " " + quote + s[..n];
    UnbrokenConcat(" ", quote);
    UnbrokenConcat(" " + quote, s[..n]);
    ReadsUnbroken(tail);
    BlockSize(more, 0);
    SplitSize(rest);
    if n == 0 && quote != "" {
      assert tail == " " + quote;
      QuoteOpensNothing(key, quote);
    }
  }

  lemma BrokenField(key: string, quote: string, s: string, v: Value)
    requires ValidKey(key) && !Unbroken(s) && QuoteMark(quote)
    requires Parse(key + ": " + quote + s + quote + "\n") == Ok(Mapping([Field(key, v)]))
    ensures v != Scalar(s)
  {
    hide SplitLines, Tokens, ParseTokens, FirstValue;
    KeyPlain(key);
    UnbrokenConcat(key, ": ");
    UnbrokenConcat(key + ": ", quote);
    var front, back := key + ": " + quote, quote + "\n";
    assert back[|back| - 1] == '\n' && LineBreak('\n');
    assert front + s + back == key + ": " + quote + s + quote + "\n";
    var rest := SplitAt(front, s, back);
    var tail := " " + quote + s[..ToBreak(s)];
    assert front + s[..ToBreak(s)] == key + ":" + tail;
    assert [Field(key, v)] + [] == [Field(key, v)];
    FirstField(key, tail, SplitLines(rest), key, v, []);
    BrokenValue(key, quote, s, SplitLines(rest), rest);
  }

  lemma OneLine(line: string)
    requires Unbroken(line)
    ensures SplitLines(line + "\n") == [line]
  {
    assert [line][1..] == [] && Ended([]) == "" && Ended([line]) == line + "\n" + "";
    assert line + "\n" + "" == line + "\n";
    SplitEnded([line]);
  }

  lemma WholeField(key: string, raw: string, v: Value)
    requires ValidKey(key) && Unbroken(raw) && Parse(key + ": " + raw + "\n") == Ok(Mapping([Field(key, v)]))
    ensures FirstValue(key, " " + raw, [], v)
  {
    hide SplitLines, Tokens, ParseTokens, FirstValue;
    KeyPlain(key);
    UnbrokenConcat(key, ": ");
    UnbrokenConcat(key + ": ", raw);
    var line := key + ": " + raw;
    OneLine(line);
    assert line == key + ":" + (" " + raw) && [key + ":" + (" " + raw)] + [] == [line];
    assert [Field(key, v)] + [] == [Field(key, v)];
    FirstField(key, " " + raw, [], key, v, []);
  }

  lemma NoLinesNoText(n: nat)
    ensures BlockText([], n) == ""
  {}

  lemma StripEnds(s: string)
    ensures Strip(s) != "" ==> !Whitespace(Strip(s)[0]) && !Whitespace(Strip(s)[|Strip(s)| - 1])
  {}

  /** A bare text that reads as itself is stripped, unquoted and refuses nothing. */
  lemma BareReads(s: string)
    requires s != "" && Strip(" " + s) != "" && PlainScalar(Strip(" " + s)) == Ok(s)
    ensures Strip(" " + s) == s && !Refused(s) && !BlankEnd(s) && !Paired(s)
  {
    var raw := Strip(" " + s);
    var i, j := StripPart(" " + s);
    StripEnds(" " + s);
    assert i == 0 ==> raw[0] == ' ';
    assert Unquote(raw) == s && |raw| <= |s|;
    assert raw == s;
  }

  lemma QuotedFits(key: string, style: Style, s: string)
    requires (style == Single || style == Double) && Unbroken(s)
    requires FirstValue(key, " " + Spell(style, s), [], Scalar(s))
    ensures Fits(style, s)
  {
    hide Strip, RStrip, MarkerLength, BlockText, BlockExtent, Refused;
    var raw := Spell(style, s);
    QuotesAlike(s);
    StripsSpace(raw);
    RStripKeeps(" " + raw);
    var text := key + ":" + (" " + raw);
    assert text[|text| - 1] == raw[|raw| - 1];
    NoMarker(text);
  }

  lemma BareFits(key: string, s: string)
    requires s != "" && Unbroken(s) && FirstValue(key, " " + s, [], Scalar(s))
    ensures Fits(Bare, s)
  {
    hide Strip, RStrip, MarkerLength, BlockText, Refused, OpensBlock, PlainScalar;
    NoLinesNoText(0);
    var none: seq<string> := [];
    assert none[..BlockExtent(none, 0)] == [];
    BareReads(s);
    RStripKeeps(" " + s);
    assert key + ":" + (" " + s) == key + ": " + s;
    OpensBlockIff(key + ": ", s);
  }

  lemma BlockFieldText(pen: Pen, key: string, s: string) returns (marker: string, rest: string)
    ensures marker == LITERAL || marker == LITERAL_STRIP
    ensures Render(pen, OneField(key, Block, s)) == key + marker + "\n" + rest
  {
    var f := WField(key, WScalar(Block, s));
    var line := Line(0, key + ":", Some(s));
    marker := Marker(pen, line);
    assert [f][1..] == [] && FieldsLines([], 0) == [];
    assert HeadText(f) == key + ":" && FieldsLines([f], 0) == [line];
    assert [line][1..] == [] && Print(pen, []) == [];
    var lines := BlockLines(line);
    assert Spaces(0) + OwnText(pen, line) == key + marker;
    assert Print(pen, [line]) == [key + marker] + lines;
    assert ([key + marker] + lines)[1..] == lines;
    rest := Ended(lines);
  }

  lemma BlockFits(pen: Pen, key: string, s: string)
    requires ValidKey(key)
    requires Parse(Render(pen, OneField(key, Block, s))) == Ok(Mapping([Field(key, Scalar(s))]))
    ensures Blockable(s)
  {
    hide SplitLines, Tokens, ParseTokens, Render, BlockText, BlockExtent, Blockable;
    var marker, rest := BlockFieldText(pen, key, s);
    var line, content := key + marker, key + marker + "\n" + rest;
    KeyPlain(key);
    UnbrokenConcat(key, marker);
    ToBreakAt(line, rest);
    var after := SplitFirst(content);
    assert content[..|line|] == line;
    var more := SplitLines(after);
    var tail := marker[1..];
    assert line == key + ":" + tail;
    assert [Field(key, Scalar(s))] + [] == [Field(key, Scalar(s))];
    FirstField(key, tail, more, key, Scalar(s), []);
    RStripKeeps(tail);
    MarkedText(key, marker);
    BlockTextIsBlock(more[..BlockExtent(more, 0)], 0);
  }

  /** Behind a key each style says exactly the texts that fit it: the written text parses to a mapping of that key to
      that very scalar if and only if it fits. */
  lemma FieldReadsIff(pen: Pen, key: string, style: Style, s: string)
    requires ValidKey(key) && pen.guarded
    ensures Parse(Render(pen, OneField(key, style, s))) == Ok(Mapping([Field(key, Scalar(s))])) <==> Fits(style, s)
  {
    hide Parse, Render, Fits;
    OneFieldMeans(key, style, s);
    if Fits(style, s) {
      OneFieldSayable(key, style, s);
      RoundTrip(pen, OneField(key, style, s));
    }
    if Parse(Render(pen, OneField(key, style, s))) == Ok(Mapping([Field(key, Scalar(s))])) {
      if style == Block {
        BlockFits(pen, key, s);
        assert Fits(style, s) by { FitsBlock(s); }
      } else {
        LineFits(pen, key, style, s);
      }
    }
  }

  lemma FitsBlock(s: string)
    requires Blockable(s)
    ensures Fits(Block, s)
  {}

  lemma OneFieldSayable(key: string, style: Style, s: string)
    requires ValidKey(key) && Fits(style, s)
    ensures Sayable(OneField(key, style, s))
  {
    assert SayableFields([WField(key, WScalar(style, s))]);
  }

  function Mark(style: Style): string {
    match style case Bare => "" case Single => "'" case Double => "\"" case Block => ""
  }

  lemma SpellIs(style: Style, s: string)
    requires style != Block
    ensures QuoteMark(Mark(style)) && Spell(style, s) == Mark(style) + s + Mark(style)
    ensures Unbroken(Spell(style, s)) <==> Unbroken(s)
    ensures Spell(style, s) == "" ==> style == Bare && s == ""
  {
    assert forall c :: c in s ==> c in Spell(style, s);
    assert forall c :: c in Spell(style, s) ==> c == '"' || c == '\'' || c in s;
  }

  lemma LineFits(pen: Pen, key: string, style: Style, s: string)
    requires ValidKey(key) && style != Block
    requires Parse(Render(pen, OneField(key, style, s))) == Ok(Mapping([Field(key, Scalar(s))]))
    ensures Fits(style, s)
  {
    hide Parse, Render, FirstValue, Fits, Unbroken, Spell, Mark;
    var raw, quote := Spell(style, s), Mark(style);
    OneFieldText(pen, key, style, s);
    SpellIs(style, s);
    if raw != "" {
      assert key + ":" + (" " + raw) + "\n" == key + ": " + raw + "\n";
      if Unbroken(s) {
        WholeField(key, raw, Scalar(s));
        if style == Bare {
          assert raw == s by { BareIs(s); }
          BareFits(key, s);
        } else {
          QuotedFits(key, style, s);
        }
      } else {
        assert key + ": " + quote + s + quote + "\n" == key + ": " + raw + "\n";
        BrokenField(key, quote, s, Scalar(s));
      }
    } else {
      EmptyFits();
    }
  }

  lemma BareIs(s: string)
    ensures Spell(Bare, s) == s
  {}

  lemma EmptyFits()
    ensures Fits(Bare, "")
  {}

  // ----- behind a dash -----

  function OneItem(key: string, style: Style, s: string): Written {
    WMapping([WField(key, WSequence([WScalar(style, s)]))])
  }

  function OneItemValue(key: string, s: string): Value { Mapping([Field(key, Sequence([Scalar(s)]))]) }

  lemma OneItemTokens(key: string, style: Style, s: string)
    ensures FieldsLines(OneItem(key, style, s).fields, 0)
            == [Line(0, key + ":", None), Line(2, "- " + Spell(style, s), None)]
  {
    var item, f := WScalar(style, s), WField(key, WSequence([WScalar(style, s)]));
    assert [item][1..] == [] && ItemsLines([], 2) == [];
    assert ItemsLines([item], 2) == [Line(2, "- " + Spell(style, s), None)];
    assert [f][1..] == [] && FieldsLines([], 0) == [] && HeadText(f) == key + ":";
  }

  lemma OneItemText(pen: Pen, key: string, style: Style, s: string)
    ensures Render(pen, OneItem(key, style, s)) == key + ":" + "\n" + ("  - " + Spell(style, s) + "\n")
  {
    hide Spell, FieldsLines;
    OneItemTokens(key, style, s);
    var head, item := Line(0, key + ":", None), Line(2, "- " + Spell(style, s), None);
    var line := "  - " + Spell(style, s);
    assert Spaces(2) == "  " && Spaces(2) + item.text == line;
    assert [item][1..] == [] && Print(pen, []) == [];
    assert Print(pen, [item]) == [line];
    assert [head, item][1..] == [item] && Spaces(0) + head.text == key + ":";
    assert Print(pen, [head, item]) == [key + ":", line];
    TwoEnded(key + ":", line);
  }

  lemma TwoEnded(a: string, b: string)
    ensures Ended([a, b]) == a + "\n" + (b + "\n")
  {
    assert [a, b][1..] == [b] && [b][1..] == [] && Ended([]) == "";
    assert Ended([b]) == b + "\n" + "" && b + "\n" + "" == b + "\n";
  }

  /** What the first item can be when this stands behind its dash. */
  predicate FirstItem(tail: string, v: Value) {
    var raw := Strip(tail);
    v.Scalar? ==> ':' !in raw && raw != "" && PlainScalar(raw) == Ok(v.text)
  }

  lemma {:induction false} RStripSpace(tail: string)
    ensures RStrip(" " + tail) == if RStrip(tail) == "" then "" else " " + RStrip(tail)
  {
    if tail == "" {
      assert " " + tail == " " && " "[..0] == "";
    } else if Whitespace(tail[|tail| - 1]) {
      assert (" " + tail)[..|tail|] == " " + tail[..|tail| - 1];
      RStripSpace(tail[..|tail| - 1]);
    } else {
      RStripKeeps(" " + tail);
      RStripKeeps(tail);
    }
  }

  /** A line of a dash keeps the dash and its blank exactly when something follows them. */
  lemma DashStays(tail: string)
    ensures RStrip("- " + tail) == if RStrip(tail) == "" then "-" else "- " + RStrip(tail)
  {
    assert "- " + tail == "-" + (" " + tail);
    RStripAfter("-", " " + tail);
    RStripSpace(tail);
    assert "-" + (" " + RStrip(tail)) == "- " + RStrip(tail);
  }

  lemma ItemLineToken(tail: string, more: seq<string>)
    requires Tokens(["  - " + tail] + more).Ok?
    ensures
      var text, tokens := RStrip("- " + tail), Tokens(["  - " + tail] + more).value;
      var m := MarkerLength(text);
      && tokens != [] && tokens[0].indent == 2
      && tokens[0].text == if m == 0 then text else text[..|text| - m] + ":"
  {
    hide RStrip, MarkerLength, BlockText, BlockExtent, Strip;
    var line := "  - " + tail;
    IndentUnique(line, 2);
    assert line[2..] == "- " + tail;
    FirstToken([line] + more, 2);
  }

  lemma FirstItemIs(lines: seq<Line>, items: seq<Value>)
    requires lines != [] && Node(lines, lines[0].indent).Ok? && items != []
    requires Node(lines, lines[0].indent).value.0 == Sequence(items)
    ensures Dash(lines[0].text)
    ensures
      var raw := Strip(lines[0].text[2..]);
      items[0].Scalar? ==> ':' !in raw && PlainScalar(raw) == Ok(items[0].text)
  {
    hide PlainScalar, Strip, MappingItem;
    var indent, raw := lines[0].indent, Strip(lines[0].text[2..]);
    assert Items(lines, indent, []).Ok? && Items(lines, indent, []).value.0 == items;
    if ':' !in raw {
      var first := [Scalar(PlainScalar(raw).value)];
      assert [] + first == first && Items(lines, indent, []) == Items(lines[1..], indent, first);
      ItemsKeep(lines[1..], indent, first);
    } else {
      var r := MappingItem(lines[0], raw, lines[1..], indent).value;
      assert [] + [r.0] == [r.0] && Items(lines, indent, []) == Items(r.1, indent, [r.0]);
      ItemsKeep(r.1, indent, [r.0]);
      ItemIsMapping(lines[0], raw, lines[1..], indent);
    }
  }

  lemma ItemIsMapping(line: Line, raw: string, rest: seq<Line>, indent: nat)
    requires MappingItem(line, raw, rest, indent).Ok?
    ensures MappingItem(line, raw, rest, indent).value.0.Mapping?
  {}

  lemma {:induction false} RStripHas(s: string, c: char)
    requires !Whitespace(c) && c in s
    ensures c in RStrip(s)
  {
    if Whitespace(s[|s| - 1]) {
      assert s == s[..|s| - 1] + [s[|s| - 1]];
      RStripHas(s[..|s| - 1], c);
    }
  }

  lemma {:induction false} LStripHas(s: string, c: char)
    requires !Whitespace(c) && c in s
    ensures c in LStrip(s)
  {
    if Whitespace(s[0]) {
      assert s == [s[0]] + s[1..];
      LStripHas(s[1..], c);
    }
  }

  lemma StripHas(s: string, c: char)
    requires !Whitespace(c) && c in s
    ensures c in Strip(s)
  {
    RStripHas(s, c);
    LStripHas(RStrip(s), c);
  }

  /** The first item of a list whose first line is this. */
  lemma ItemLineValue(tail: string, more: seq<string>, items: seq<Value>)
    requires Tokens(["  - " + tail] + more).Ok? && items != []
    requires
      var lines := Tokens(["  - " + tail] + more).value;
      lines != [] && Node(lines, 2).Ok? && Node(lines, 2).value.0 == Sequence(items)
    ensures FirstItem(tail, items[0])
  {
    hide Tokens, RStrip, MarkerLength, Strip, PlainScalar, Node;
    var lines := Tokens(["  - " + tail] + more).value;
    ItemLineToken(tail, more);
    FirstItemIs(lines, items);
    DashStays(tail);
    var text, own := RStrip("- " + tail), lines[0].text;
    var m := MarkerLength(text);
    if m == 0 {
      assert own[2..] == RStrip(tail);
      StripOfRStrip(tail);
    } else {
      MarkerEnds(text);
      assert own[|own| - 1] == ':' && |own| > 2;
      assert own[2..][|own| - 3] == ':';
      StripHas(own[2..], ':');
    }
  }

  lemma StripOfRStrip(s: string)
    ensures Strip(RStrip(s)) == Strip(s) && (RStrip(s) != "" ==> Strip(s) != "")
  {
    RStripTwice(s);
    if RStrip(s) != "" {
      var r := RStrip(s);
      assert r[|r| - 1] in r;
      LStripHas(r, r[|r| - 1]);
    }
  }

  lemma MarkerEnds(text: string)
    ensures MarkerLength(text) != 0 ==>
              ':' in text && MarkerLength(text) <= |text| && text[|text| - MarkerLength(text)] == ':'
  {
    if EndsWith(text, LITERAL) { EndsAt(text, LITERAL, 0); }
    if EndsWith(text, LITERAL_STRIP) { EndsAt(text, LITERAL_STRIP, 0); }
  }

  lemma SplitFeed(line: string, rest: string)
    requires Unbroken(line)
    ensures SplitLines(line + "\n" + rest) == [line] + SplitLines(rest)
  {
    var content := line + "\n" + rest;
    ToBreakAt(line, rest);
    assert content[..|line|] == line && content[|line|] == '\n' && content[|line| + 1..] == rest;
  }

  /** The tokens of a key with nothing on its line: its own, and those of what is below it. */
  lemma KeyAlone(key: string, more: seq<string>)
    requires ValidKey(key)
    ensures Tokens([key + ":"] + more) ==
            match Tokens(more) case Fail => Fail case Ok(others) => Ok([Line(0, key + ":", None)] + others)
  {
    hide RStrip, MarkerLength, BlockText, BlockExtent;
    var line := key + ":";
    KeyPlain(key);
    NoMarker(line);
    RStripKeeps(line);
    IndentUnique(line, 0);
    assert line[0..] == line && ([line] + more)[1..] == more && more[0..] == more;
  }

  lemma ListValue(key: string, tail: string, more: seq<string>, s: string)
    requires ValidKey(key) && Tokens([key + ":"] + (["  - " + tail] + more)).Ok?
    requires ParseTokens(Tokens([key + ":"] + (["  - " + tail] + more)).value) == Ok(OneItemValue(key, s))
    ensures FirstItem(tail, Scalar(s))
  {
    hide Tokens, ParseTokens, FirstItem, Strip, RStrip, Node, Entry;
    KeyAlone(key, ["  - " + tail] + more);
    var below := Tokens(["  - " + tail] + more).value;
    var lines := [Line(0, key + ":", None)] + below;
    assert lines[1..] == below;
    ItemLineToken(tail, more);
    FirstFieldIs(lines, [Field(key, Sequence([Scalar(s)]))]);
    EntryAlone(key);
    ItemLineValue(tail, more, [Scalar(s)]);
  }

  lemma EntryAlone(key: string)
    requires ValidKey(key)
    ensures Entry(key + ":") == Ok((key, ""))
  {
    KeyPlain(key);
    BeforeColonAt(key, "");
    assert key + ":" + "" == key + ":" && (key + ":")[|key| + 1..] == "";
  }

  lemma ItemSpelled(style: Style, s: string)
    requires Unbroken(s) && FirstItem(Spell(style, s), Scalar(s))
    ensures FitsItem(style, s)
  {
    match style
    case Bare => BareItem(s);
    case Block => StripOfNothing();
    case _ => QuotedItem(style, s);
  }

  lemma BareItem(s: string)
    requires Unbroken(s) && FirstItem(s, Scalar(s))
    ensures FitsItem(Bare, s)
  {
    hide RStrip, LStrip, Refused;
    StripEnds(s);
    var i, j := StripPart(s);
    assert Unquote(Strip(s)) == s && |Strip(s)| <= |s|;
    assert Strip(s) == s;
  }

  lemma QuotedItem(style: Style, s: string)
    requires (style == Single || style == Double) && Unbroken(s) && FirstItem(Spell(style, s), Scalar(s))
    ensures FitsItem(style, s)
  {
    hide Strip, Refused;
    var raw := Spell(style, s);
    StripsNothing(raw);
    QuotesAlike(s);
    assert forall c :: c in s ==> c in raw;
  }

  lemma StripOfNothing()
    ensures Strip("") == ""
  {}

  lemma BrokenItem(quote: string, s: string, n: nat)
    requires QuoteMark(quote) && !Unbroken(s) && n <= |s| && Unbroken(s[..n])
    ensures !FirstItem(quote + s[..n], Scalar(s))
  {
    hide Strip, PlainScalar;
    UnbrokenConcat(quote, s[..n]);
    ReadsUnbroken(quote + s[..n]);
  }

  lemma ItemLineFits(pen: Pen, key: string, style: Style, s: string)
    requires ValidKey(key)
    requires Parse(Render(pen, OneItem(key, style, s))) == Ok(OneItemValue(key, s))
    ensures FitsItem(style, s)
  {
    hide Render, Parse, FirstItem, FitsItem, Spell, Unbroken;
    var raw := Spell(style, s);
    OneItemText(pen, key, style, s);
    var text := "  - " + raw + "\n";
    assert Parse(key + ":" + "\n" + text) == Ok(OneItemValue(key, s));
    if style == Block {
      BlockSpells();
      EmptyIsNoItem(s);
      WholeItem(key, raw, s);
    } else {
      SpellIs(style, s);
      if Unbroken(s) {
        WholeItem(key, raw, s);
        ItemSpelled(style, s);
      } else {
        BrokenItemText(key, Mark(style), s);
      }
    }
  }

  lemma WholeItem(key: string, raw: string, s: string)
    requires ValidKey(key) && Unbroken(raw)
    requires Parse(key + ":" + "\n" + ("  - " + raw + "\n")) == Ok(OneItemValue(key, s))
    ensures FirstItem(raw, Scalar(s))
  {
    hide Tokens, ParseTokens, SplitLines, FirstItem;
    KeyPlain(key);
    UnbrokenConcat(key, ":");
    UnbrokenConcat("  - ", raw);
    SplitFeed(key + ":", "  - " + raw + "\n");
    OneLine("  - " + raw);
    assert ["  - " + raw] + [] == ["  - " + raw];
    ListValue(key, raw, [], s);
  }

  lemma BrokenItemText(key: string, quote: string, s: string)
    requires ValidKey(key) && QuoteMark(quote) && !Unbroken(s)
    ensures Parse(key + ":" + "\n" + ("  - " + (quote + s + quote) + "\n")) != Ok(OneItemValue(key, s))
  {
    hide Tokens, ParseTokens, SplitLines, FirstItem;
    var text := "  - " + (quote + s + quote) + "\n";
    KeyPlain(key);
    UnbrokenConcat(key, ":");
    SplitFeed(key + ":", text);
    var rest := BrokenItemLines(quote, s);
    assert "  - " + quote + s + quote + "\n" == text;
    var tail := quote + s[..ToBreak(s)];
    assert "  - " + quote + s[..ToBreak(s)] == "  - " + tail;
    if Parse(key + ":" + "\n" + text) == Ok(OneItemValue(key, s)) {
      ListValue(key, tail, SplitLines(rest), s);
      BrokenItem(quote, s, ToBreak(s));
    }
  }

  lemma EmptyIsNoItem(s: string)
    ensures !FirstItem("", Scalar(s)) && Unbroken("")
  {
    StripOfNothing();
  }

  lemma BrokenItemLines(quote: string, s: string) returns (rest: string)
    requires QuoteMark(quote) && !Unbroken(s)
    ensures Unbroken(s[..ToBreak(s)])
    ensures SplitLines("  - " + quote + s + quote + "\n")
            == ["  - " + quote + s[..ToBreak(s)]] + SplitLines(rest)
  {
    var front, back := "  - " + quote, quote + "\n";
    UnbrokenConcat("  - ", quote);
    assert back[|back| - 1] == '\n' && LineBreak('\n');
    rest := SplitAt(front, s, back);
    assert front + s + back == "  - " + quote + s + quote + "\n";
  }

  lemma OneItemMeans(key: string, style: Style, s: string)
    ensures Meaning(OneItem(key, style, s)) == OneItemValue(key, s)
  {
    var item := WScalar(style, s);
    var fields := [WField(key, WSequence([item]))];
    assert [item][1..] == [] && ItemMeanings([]) == [] && ItemMeanings([item]) == [Scalar(s)];
    assert fields[1..] == [] && FieldMeanings([]) == [];
    assert FieldMeanings(fields) == [Field(key, Sequence([Scalar(s)]))];
  }

  lemma OneItemSayable(key: string, style: Style, s: string)
    requires ValidKey(key) && FitsItem(style, s)
    ensures Sayable(OneItem(key, style, s))
  {
    assert SayableItems([WScalar(style, s)]);
    assert SayableFields([WField(key, WSequence([WScalar(style, s)]))]);
  }

  /** Behind a dash each style says exactly the texts that fit it there: no colon, and bare text not empty; a block never
      does. */
  lemma ItemReadsIff(pen: Pen, key: string, style: Style, s: string)
    requires ValidKey(key) && pen.guarded
    ensures Parse(Render(pen, OneItem(key, style, s))) == Ok(OneItemValue(key, s)) <==> FitsItem(style, s)
  {
    hide Parse, Render, FitsItem;
    OneItemMeans(key, style, s);
    if FitsItem(style, s) {
      OneItemSayable(key, style, s);
      RoundTrip(pen, OneItem(key, style, s));
    }
    if Parse(Render(pen, OneItem(key, style, s))) == Ok(OneItemValue(key, s)) {
      ItemLineFits(pen, key, style, s);
    }
  }
}
