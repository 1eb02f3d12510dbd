/** Tokenizing undoes printing of lines. */
module YamlPrint {
  import opened YamlText
  import opened YamlParser
  import opened YamlRender
  import opened YamlRoundTrip

  // ----- one line -----

  predicate TextOk(text: string) {
    && text != "" && text[0] != ' ' && text[0] != '\t' && text[0] != '#'
    && !Whitespace(text[|text| - 1]) && Unbroken(text) && MarkerLength(text) == 0
  }

  /** A line that a printed text can hold. */
  predicate TokenOk(t: Line) {
    TextOk(t.text) && (t.block.Some? ==> t.text[|t.text| - 1] == ':' && Blockable(t.block.value))
  }

  lemma IndentUnique(s: string, k: nat)
    requires k <= |s| && (forall i :: 0 <= i < k ==> s[i] == ' ') && (k < |s| ==> s[k] != ' ')
    ensures Indent(s) == k
  {}

  lemma IndentOf(n: nat, line: string)
    ensures Indent(Spaces(n) + line) == n + Indent(line)
    ensures (Spaces(n) + line)[n..] == line && (Blank(Spaces(n) + line) <==> Blank(line))
  {
    var whole := Spaces(n) + line;
    IndentUnique(whole, n + Indent(line));
    assert forall c :: c in whole <==> c in Spaces(n) || c in line;
  }

  lemma RStripKeeps(s: string)
    requires s != "" && !Whitespace(s[|s| - 1])
    ensures RStrip(s) == s
  {}

  // ----- a block -----

  predicate AllDeeper(lines: seq<string>, indent: nat) {
    forall i :: 0 <= i < |lines| ==> Blank(lines[i]) || Indent(lines[i]) > indent
  }

  lemma {:induction false} ExtentPasses(block: seq<string>, after: seq<string>, indent: nat)
    requires AllDeeper(block, indent)
    ensures BlockExtent(block + after, indent) == |block| + BlockExtent(after, indent)
  {
    if block == [] {
      assert block + after == after;
    } else {
      assert (block + after)[1..] == block[1..] + after;
      ExtentPasses(block[1..], after, indent);
    }
  }

  lemma IndentedIs(line: string, n: nat)
    requires BlockLine(line)
    ensures Blank(Indented(line, n)) <==> Blank(line)
    ensures !Blank(line) ==> Indent(Indented(line, n)) == n + Indent(line) && Indented(line, n)[n..] == line
  {
    IndentOf(n, line);
  }

  lemma IndentedAll(lines: seq<string>, n: nat)
    requires forall i :: 0 <= i < |lines| ==> BlockLine(lines[i])
    ensures var raw := IndentedLines(lines, n);
            forall i :: 0 <= i < |lines| ==>
              && (Blank(raw[i]) <==> lines[i] == "") && (Blank(lines[i]) <==> lines[i] == "")
              && (lines[i] != "" ==> Indent(raw[i]) == n + Indent(lines[i]) && raw[i][n..] == lines[i])
  {
    forall i | 0 <= i < |lines|
      ensures var raw := IndentedLines(lines, n);
              && (Blank(raw[i]) <==> lines[i] == "") && (Blank(lines[i]) <==> lines[i] == "")
              && (lines[i] != "" ==> Indent(raw[i]) == n + Indent(lines[i]) && raw[i][n..] == lines[i])
    {
      IndentedIs(lines[i], n);
    }
  }

  lemma BlockIndentIs(text: string, n: nat, indent: nat)
    requires Blockable(text)
    ensures var raw := IndentedLines(SplitFeeds(text), n); HasContent(raw) ==> BlockIndent(raw, indent + 2) == n
  {
    var lines := SplitFeeds(text);
    var raw := IndentedLines(lines, n);
    IndentedAll(lines, n);
    if HasContent(raw) {
      var w :| 0 <= w < |raw| && !Blank(raw[w]);
      assert !Blank(lines[w]);
      var i :| 0 <= i < |lines| && !Blank(lines[i]) && Indent(lines[i]) == 0;
      assert Indent(raw[i]) == n && !Blank(raw[i]);
    }
  }

  lemma BlockReads(text: string, n: nat, indent: nat)
    requires Blockable(text)
    ensures BlockText(IndentedLines(SplitFeeds(text), n), indent) == text
  {
    var lines := SplitFeeds(text);
    var raw := IndentedLines(lines, n);
    IndentedAll(lines, n);
    BlockIndentIs(text, n, indent);
    JoinSplit(text);
    var cut := CutLines(raw, BlockIndent(raw, indent + 2));
    forall k | 0 <= k < |lines|
      ensures cut[k] == lines[k]
    {
      assert cut[k] == CutLine(raw[k], BlockIndent(raw, indent + 2));
    }
    assert cut == lines;
  }

  // ----- all lines -----

  predicate AllOk(tokens: seq<Line>) { forall i :: 0 <= i < |tokens| ==> TokenOk(tokens[i]) }

  lemma PlainLineReads(pen: Pen, t: Line, after: seq<string>)
    requires TokenOk(t) && t.block.None?
    ensures Tokens(PrintLine(pen, t) + after) ==
            match Tokens(after) case Fail => Fail case Ok(others) => Ok([t] + others)
  {
    hide RStrip, Spaces;
    var raw := PrintLine(pen, t) + after;
    IndentOf(t.indent, t.text);
    assert Indent(t.text) == 0;
    RStripKeeps(t.text);
    assert raw[0] == Spaces(t.indent) + t.text && raw[1..] == after && raw[1..][0..] == after;
  }

  lemma EndsAlike(s: string, tail: string)
    requires EndsWith(s, tail) && tail != ""
    ensures s != "" && s[|s| - 1] == tail[|tail| - 1]
  {
    assert s[|s| - |tail|..][|tail| - 1] == s[|s| - 1];
  }

  lemma NoMarker(text: string)
    requires text != "" && text[|text| - 1] != '|' && text[|text| - 1] != '-'
    ensures MarkerLength(text) == 0
  {
    if EndsWith(text, LITERAL) { EndsAlike(text, LITERAL); }
    if EndsWith(text, LITERAL_STRIP) { EndsAlike(text, LITERAL_STRIP); }
  }

  lemma EndsWithTail(head: string, tail: string)
    requires tail != ""
    ensures EndsWith(head + tail, tail) && (head + tail)[..|head|] == head
    ensures (head + tail)[|head + tail| - 1] == tail[|tail| - 1]
  {}

  lemma MarkedText(head: string, marker: string)
    requires marker == LITERAL || marker == LITERAL_STRIP
    ensures MarkerLength(head + marker) == |marker| && (head + marker)[..|head|] == head
    ensures RStrip(head + marker) == head + marker
  {
    EndsWithTail(head, marker);
    if marker == LITERAL_STRIP && EndsWith(head + marker, LITERAL) { EndsAlike(head + marker, LITERAL); }
    RStripKeeps(head + marker);
  }

  lemma BlockStep(raw: seq<string>, n: nat, head: string, marker: string, extent: nat, text: string)
    requires marker == LITERAL || marker == LITERAL_STRIP
    requires raw != [] && Indent(raw[0]) == n && raw[0][n..] == head + marker
    requires (head + marker)[0] != '\t' && (head + marker)[0] != '#'
    requires BlockExtent(raw[1..], n) == extent && BlockText(raw[1..][..extent], n) == text
    ensures Tokens(raw) == match Tokens(raw[1..][extent..])
                           case Fail => Fail
                           case Ok(others) => Ok([Line(n, head + ":", Some(text))] + others)
  {
    hide RStrip, MarkerLength, BlockExtent, BlockText;
    MarkedText(head, marker);
    assert (head + marker)[..|head + marker| - |marker|] == head;
  }

  lemma FirstAndBlock<T>(x: T, block: seq<T>, after: seq<T>)
    ensures var all := [x] + block + after;
            all[0] == x && all[1..] == block + after && all[1..][..|block|] == block && all[1..][|block|..] == after
  {
    assert ([x] + block + after)[1..] == block + after;
  }

  lemma BlockParts(pen: Pen, t: Line, after: seq<string>)
    requires TokenOk(t) && t.block.Some?
    ensures var head, block, raw := t.text[..|t.text| - 1], BlockLines(t), PrintLine(pen, t) + after;
            && raw[0] == Spaces(t.indent) + (head + Marker(pen, t)) && raw[1..] == block + after
            && raw[1..][..|block|] == block && raw[1..][|block|..] == after
            && Indent(raw[0]) == t.indent && raw[0][t.indent..] == head + Marker(pen, t)
  {
    var marked := t.text[..|t.text| - 1] + Marker(pen, t);
    MarkedLine(pen, t);
    FirstAndBlock(Spaces(t.indent) + marked, BlockLines(t), after);
    IndentOf(t.indent, marked);
    IndentUnique(marked, 0);
  }

  lemma BlockLineReads(pen: Pen, t: Line, after: seq<string>)
    requires TokenOk(t) && t.block.Some?
    requires after != [] ==> !Blank(after[0]) && Indent(after[0]) <= t.indent
    ensures Tokens(PrintLine(pen, t) + after) ==
            match Tokens(after) case Fail => Fail case Ok(others) => Ok([t] + others)
  {
    var lines, head := SplitFeeds(t.block.value), t.text[..|t.text| - 1];
    var block := BlockLines(t);
    BlockParts(pen, t, after);
    MarkedLine(pen, t);
    IndentedAll(lines, t.indent + 4);
    ExtentPasses(block, after, t.indent);
    BlockReads(t.block.value, t.indent + 4, t.indent);
    BlockStep(PrintLine(pen, t) + after, t.indent, head, Marker(pen, t), |block|, t.block.value);
  }

  lemma MarkedLine(pen: Pen, t: Line)
    requires TokenOk(t) && t.block.Some?
    ensures var head := t.text[..|t.text| - 1];
            && t.text == head + ":" && OwnText(pen, t) == head + Marker(pen, t)
            && (head + Marker(pen, t))[0] == t.text[0]
  {
    var head, marker := t.text[..|t.text| - 1], Marker(pen, t);
    assert t.text == head + ":" && marker == ":" + marker[1..];
    assert t.text + marker[1..] == head + marker;
    assert (head + marker)[0] == t.text[0];
  }

  lemma OwnLine(pen: Pen, t: Line)
    requires TokenOk(t)
    ensures !Blank(PrintLine(pen, t)[0]) && Indent(PrintLine(pen, t)[0]) == t.indent
  {
    var text := OwnText(pen, t);
    IndentOf(t.indent, text);
    IndentUnique(text, 0);
    assert t.text[|t.text| - 1] in text;
  }

  lemma FirstPrinted(pen: Pen, tokens: seq<Line>)
    requires tokens != [] && TokenOk(tokens[0])
    ensures var lines := Print(pen, tokens);
            lines != [] && !Blank(lines[0]) && Indent(lines[0]) == tokens[0].indent
  {
    OwnLine(pen, tokens[0]);
    assert Print(pen, tokens)[0] == PrintLine(pen, tokens[0])[0];
  }

  lemma LineReads(pen: Pen, t: Line, after: seq<string>)
    requires TokenOk(t)
    requires t.block.Some? && after != [] ==> !Blank(after[0]) && Indent(after[0]) <= t.indent
    ensures Tokens(PrintLine(pen, t) + after) ==
            match Tokens(after) case Fail => Fail case Ok(others) => Ok([t] + others)
  {
    if t.block.None? {
      PlainLineReads(pen, t, after);
    } else {
      BlockLineReads(pen, t, after);
    }
  }

  /** A guard is neither part of the block before it nor a token. */
  lemma GuardReads(t: Line, after: seq<string>)
    ensures var lines := Guard(t) + after;
            && !Blank(lines[0]) && Indent(lines[0]) == t.indent && Tokens(lines) == Tokens(after)
  {
    var lines := Guard(t) + after;
    IndentOf(t.indent, "#");
    assert Indent("#") == 0 && '#' in "#";
    assert lines[0] == Spaces(t.indent) + "#" && lines[1..] == after;
  }

  /** A line that swallows nothing, or is guarded, is read back as one token. */
  lemma PrintStep(pen: Pen, tokens: seq<Line>)
    requires tokens != [] && AllOk(tokens) && (pen.guarded || !Swallows(tokens))
    ensures Tokens(Print(pen, tokens)) ==
            match Tokens(Print(pen, tokens[1..])) case Fail => Fail case Ok(others) => Ok([tokens[0]] + others)
  {
    var t, later := tokens[0], Print(pen, tokens[1..]);
    if Swallows(tokens) {
      GuardReads(t, later);
      LineReads(pen, t, Guard(t) + later);
    } else {
      if tokens[1..] != [] { FirstPrinted(pen, tokens[1..]); }
      assert [] + later == later;
      LineReads(pen, t, later);
    }
  }

  lemma NothingPrinted(pen: Pen)
    ensures Tokens(Print(pen, [])) == Ok([])
  {}

  lemma {:induction false} PrintedLinesRead(pen: Pen, tokens: seq<Line>)
    requires AllOk(tokens) && pen.guarded
    ensures Tokens(Print(pen, tokens)) == Ok(tokens)
  {
    hide Tokens, Print;
    if tokens == [] {
      NothingPrinted(pen);
    } else {
      PrintedLinesRead(pen, tokens[1..]);
      PrintStep(pen, tokens);
      assert tokens == [tokens[0]] + tokens[1..];
    }
  }

  lemma {:induction false} PrintedUnbroken(pen: Pen, tokens: seq<Line>)
    requires AllOk(tokens)
    ensures forall i :: 0 <= i < |Print(pen, tokens)| ==> Unbroken(Print(pen, tokens)[i])
  {
    if tokens != [] {
      PrintedUnbroken(pen, tokens[1..]);
      LineUnbroken(pen, tokens[0]);
      assert forall c :: c in Spaces(tokens[0].indent) + "#" ==> c == ' ' || c == '#';
      UnbrokenJoin(if pen.guarded && Swallows(tokens) then Guard(tokens[0]) else [], Print(pen, tokens[1..]));
      UnbrokenJoin(PrintLine(pen, tokens[0]),
        (if pen.guarded && Swallows(tokens) then Guard(tokens[0]) else []) + Print(pen, tokens[1..]));
    }
  }

  lemma UnbrokenJoin(a: seq<string>, b: seq<string>)
    requires (forall i :: 0 <= i < |a| ==> Unbroken(a[i])) && (forall i :: 0 <= i < |b| ==> Unbroken(b[i]))
    ensures forall i :: 0 <= i < |a + b| ==> Unbroken((a + b)[i])
  {}

  lemma LineUnbroken(pen: Pen, t: Line)
    requires TokenOk(t)
    ensures forall i :: 0 <= i < |PrintLine(pen, t)| ==> Unbroken(PrintLine(pen, t)[i])
  {
    assert forall c :: c in Spaces(t.indent) + OwnText(pen, t) ==> c == ' ' || c == '|' || c == '-' || c in t.text;
    if t.block.Some? {
      var lines := SplitFeeds(t.block.value);
      forall i | 0 <= i < |lines|
        ensures Unbroken(Indented(lines[i], t.indent + 4))
      {
        assert BlockLine(lines[i]);
        assert forall c :: c in Indented(lines[i], t.indent + 4) ==> c == ' ' || c in lines[i];
      }
    }
  }

  // ----- the rendered lines can be printed -----

  lemma UnbrokenConcat(a: string, b: string)
    requires Unbroken(a) && Unbroken(b)
    ensures Unbroken(a + b)
  {}

  lemma EndOfJoin(a: string, b: string, tail: string)
    requires |tail| <= |b|
    ensures EndsWith(a + b, tail) <==> EndsWith(b, tail)
  {
    assert (a + b)[|a + b| - |tail|..] == b[|b| - |tail|..];
  }

  lemma EndsAt(s: string, tail: string, k: nat)
    requires EndsWith(s, tail) && k < |tail|
    ensures s[|s| - |tail| + k] == tail[k]
  {
    assert s[|s| - |tail|..][k] == s[|s| - |tail| + k];
  }

  /** Behind a colon and a blank a text is a marker, or ends in one, exactly when it opens a block. */
  lemma OpensBlockIff(front: string, s: string)
    requires |front| >= 2 && front[|front| - 2] == ':' && front[|front| - 1] == ' ' && s != ""
    ensures MarkerLength(front + s) != 0 <==> OpensBlock(s)
  {
    var text := front + s;
    if |s| >= 3 { EndOfJoin(front, s, LITERAL); }
    if |s| >= 4 { EndOfJoin(front, s, LITERAL_STRIP); }
    if EndsWith(text, LITERAL) && |s| < 3 {
      EndsAt(text, LITERAL, 0);
      EndsAt(text, LITERAL, 2);
    }
    if EndsWith(text, LITERAL_STRIP) && |s| < 4 {
      EndsAt(text, LITERAL_STRIP, 0);
      EndsAt(text, LITERAL_STRIP, 1);
      EndsAt(text, LITERAL_STRIP, 2);
      EndsAt(text, LITERAL_STRIP, 3);
    }
    if s == "|" { assert text[|text| - 3..] == LITERAL; }
    if s == "|-" { assert text[|text| - 4..] == LITERAL_STRIP; }
  }

  lemma NoColonNoMarker(text: string)
    requires ':' !in text
    ensures MarkerLength(text) == 0
  {
    if EndsWith(text, LITERAL) { EndsAt(text, LITERAL, 0); }
    if EndsWith(text, LITERAL_STRIP) { EndsAt(text, LITERAL_STRIP, 0); }
  }

  lemma SpelledUnbroken(style: Style, s: string)
    requires style != Block && (Fits(style, s) || FitsItem(style, s))
    ensures Unbroken(Spell(style, s))
  {
    assert forall c :: c in Spell(style, s) ==> c == '"' || c == '\'' || c in s;
  }

  predicate Dashing(dash: string) { dash == "" || dash == "- " }

  /** The start of a field's line, behind a dash or not. */
  lemma FrontOk(dash: string, key: string)
    requires ValidKey(key) && Dashing(dash)
    ensures TextOk(dash + key + ":")
    ensures
      var front := dash + key + ": ";
      && Unbroken(front) && |front| >= 2 && front[|front| - 2] == ':' && front[|front| - 1] == ' '
      && front[0] != ' ' && front[0] != '\t' && front[0] != '#'
  {
    KeyPlain(key);
    UnbrokenConcat(dash, key);
    UnbrokenConcat(dash + key, ":");
    UnbrokenConcat(dash + key, ": ");
    NoMarker(dash + key + ":");
    assert dash + key + ": " == (dash + key) + ": ";
  }

  lemma FilledOk(front: string, w: Written)
    requires Unbroken(front) && |front| >= 2 && front[|front| - 2] == ':' && front[|front| - 1] == ' '
    requires front[0] != ' ' && front[0] != '\t' && front[0] != '#'
    requires w.WScalar? && w.style != Block && Sayable(w) && RawText(w) != ""
    ensures TextOk(front + RawText(w))
  {
    hide Spell, MarkerLength;
    SpelledReads(w.style, w.text);
    SpelledUnbroken(w.style, w.text);
    UnbrokenConcat(front, RawText(w));
    RawMarks(front, w);
    hide Fits;
  }

  /** The line of a field, behind a dash or not, is one that a printed text can hold. */
  lemma HeadOk(dash: string, f: WField)
    requires ValidKey(f.key) && Sayable(f.value) && Dashing(dash)
    ensures TextOk(dash + HeadText(f))
    ensures IsBlock(f.value) ==> (dash + HeadText(f))[|dash + HeadText(f)| - 1] == ':'
  {
    hide TextOk, Fits;
    var raw := RawText(f.value);
    BlockSpells();
    FrontOk(dash, f.key);
    if raw == "" {
      assert dash + HeadText(f) == dash + f.key + ":";
    } else {
      assert dash + HeadText(f) == (dash + f.key + ": ") + raw;
      FilledOk(dash + f.key + ": ", f.value);
    }
  }

  lemma RawMarks(front: string, w: Written)
    requires |front| >= 2 && front[|front| - 2] == ':' && front[|front| - 1] == ' '
    requires w.WScalar? && Sayable(w) && RawText(w) != ""
    ensures MarkerLength(front + RawText(w)) == 0
  {
    var raw := RawText(w);
    if w.style == Bare {
      OpensBlockIff(front, raw);
    } else {
      BlockSpells();
      assert (front + raw)[|front + raw| - 1] == raw[|raw| - 1];
      NoMarker(front + raw);
    }
  }

  lemma ScalarItemOk(style: Style, s: string)
    requires FitsItem(style, s)
    ensures TextOk("- " + Spell(style, s))
  {
    var raw := Spell(style, s);
    SpelledReads(style, s);
    SpelledUnbroken(style, s);
    UnbrokenConcat("- ", raw);
    assert forall c :: c in raw ==> c == '"' || c == '\'' || c in s;
    NoColonNoMarker("- " + raw);
  }

  lemma HeadToken(f: WField, indent: nat)
    requires ValidKey(f.key) && Sayable(f.value)
    ensures AllOk([Line(indent, HeadText(f), HeadBlock(f.value))])
    ensures AllOk([Line(indent, "- " + HeadText(f), HeadBlock(f.value))])
  {
    hide TextOk, HeadText;
    HeadOk("", f);
    HeadOk("- ", f);
    assert "" + HeadText(f) == HeadText(f);
  }

  lemma {:induction false} BelowOk(w: Written, nest: nat)
    requires Sayable(w)
    ensures AllOk(Below(w, nest))
    decreases w, 1
  {
    match w
    case WScalar(_, _) =>
    case WMapping(fields) => FieldsOk(fields, nest);
    case WSequence(items) => ItemsOk(items, nest);
  }

  lemma {:induction false} FieldsOk(fields: seq<WField>, indent: nat)
    requires SayableFields(fields)
    ensures AllOk(FieldsLines(fields, indent))
    decreases fields, 2
  {
    if fields != [] {
      hide TokenOk, HeadText;
      var f := fields[0];
      FieldsOk(fields[1..], indent);
      BelowOk(f.value, indent + 2);
      HeadToken(f, indent);
    }
  }

  lemma {:induction false} ItemOk(w: Written, indent: nat)
    requires SayableItem(w)
    ensures AllOk(ItemLines(w, indent))
    decreases w, 3
  {
    hide TextOk, HeadText;
    if w.WScalar? {
      ScalarItemOk(w.style, w.text);
    } else {
      SayableItemFields(w.fields);
      var f := w.fields[0];
      FieldsOk(w.fields[1..], indent + 2);
      BelowOk(f.value, indent + 4);
      HeadToken(f, indent);
    }
  }

  lemma {:induction false} ItemsOk(items: seq<Written>, indent: nat)
    requires SayableItems(items)
    ensures AllOk(ItemsLines(items, indent))
    decreases items, 4
  {
    if items != [] {
      hide TokenOk;
      SayableItemsSplit(items);
      ItemOk(items[0], indent);
      ItemsOk(items[1..], indent);
    }
  }

  /** Whatever style each scalar is written in, as long as it can say that scalar, and whichever marker opens each
      block, parsing the text gives back what was meant. */
  lemma RoundTrip(pen: Pen, w: Written)
    requires w.WMapping? && Sayable(w) && pen.guarded
    ensures Parse(Render(pen, w)) == Ok(Meaning(w))
  {
    var lines := FieldsLines(w.fields, 0);
    FieldsOk(w.fields, 0);
    PrintedUnbroken(pen, lines);
    SplitEnded(Print(pen, lines));
    PrintedLinesRead(pen, lines);
    TokensParse(w);
  }
}
