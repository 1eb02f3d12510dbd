/** The values the subset can say, the ways to write each of their scalars, and the renderings. */
module YamlRender {
  import opened YamlText
  import opened YamlParser

  // ----- which values -----

  function Quoted(s: string): string { "\"" + s + "\"" }

  /** A text that can stand on the line of its key or dash. */
  predicate Inline(s: string) { !Refused(Quoted(s)) && Unbroken(s) }

  /** A line of a block: empty or with content. */
  predicate BlockLine(line: string) { Unbroken(line) && (Blank(line) ==> line == "") }

  /** A text that can be a block: if it has content, some line starts with it. */
  predicate Blockable(s: string) {
    var lines := SplitFeeds(s);
    && (forall i :: 0 <= i < |lines| ==> BlockLine(lines[i]))
    && (HasContent(lines) ==> exists i :: 0 <= i < |lines| && !Blank(lines[i]) && Indent(lines[i]) == 0)
  }

  predicate Good(v: Value)
    decreases v, 0
  {
    match v
    case Scalar(text) => Inline(text) || Blockable(text)
    case Mapping(fields) => fields != [] && GoodFields(fields)
    case Sequence(items) => items != [] && GoodItems(items)
  }

  predicate GoodItems(items: seq<Value>)
    decreases items, 3
  {
    forall i :: 0 <= i < |items| ==> GoodItem(items[i])
  }

  predicate GoodFields(fields: seq<Field>)
    decreases fields, 1
  {
    && DistinctKeys(fields)
    && forall i :: 0 <= i < |fields| ==> ValidKey(fields[i].key) && Good(fields[i].value)
  }

  /** An item of a sequence is a scalar without a colon or a mapping. */
  predicate GoodItem(v: Value)
    decreases v, 2
  {
    match v
    case Scalar(text) => Inline(text) && ':' !in text
    case Mapping(_) => Good(v)
    case Sequence(_) => false
  }

  // ----- how they are written -----

  /** How a scalar is written: as it is, between quotes of either kind, or as a block below its line. */
  datatype Style = Bare | Single | Double | Block

  /** A value together with a style for each of its scalars. */
  datatype Written =
    | WScalar(style: Style, text: string)
    | WMapping(fields: seq<WField>)
    | WSequence(items: seq<Written>)

  datatype WField = WField(key: string, value: Written)

  /** What is meant, whatever the styles. */
  function Meaning(w: Written): Value
    decreases w, 0
  {
    match w
    case WScalar(_, text) => Scalar(text)
    case WMapping(fields) => Mapping(FieldMeanings(fields))
    case WSequence(items) => Sequence(ItemMeanings(items))
  }

  function FieldMeanings(fields: seq<WField>): (r: seq<Field>)
    ensures |r| == |fields|
    decreases fields, 1
  {
    if fields == [] then []
    else [Field(fields[0].key, Meaning(fields[0].value))] + FieldMeanings(fields[1..])
  }

  function ItemMeanings(items: seq<Written>): (r: seq<Value>)
    ensures |r| == |items|
    decreases items, 1
  {
    if items == [] then [] else [Meaning(items[0])] + ItemMeanings(items[1..])
  }

  predicate BlankEnd(s: string) { s != "" && (Whitespace(s[0]) || Whitespace(s[|s| - 1])) }

  /** A text that looks quoted. */
  predicate Paired(s: string) { |s| >= 2 && s[0] == s[|s| - 1] && Quote(s[0]) }

  /** Behind a key this text would open a block. */
  predicate OpensBlock(s: string) {
    s == "|" || s == "|-" || EndsWith(s, LITERAL) || EndsWith(s, LITERAL_STRIP)
  }

  /** A text that can stand as it is: on one line, nothing refused, no blank at an end, and not looking quoted. */
  predicate Plain(s: string) { Unbroken(s) && !Refused(s) && !BlankEnd(s) && !Paired(s) }

  /** This style can say this text behind a key. */
  predicate Fits(style: Style, s: string) {
    match style
    case Bare => Plain(s) && !OpensBlock(s)
    case Single => Inline(s)
    case Double => Inline(s)
    case Block => Blockable(s)
  }

  /** This style can say this text behind a dash. */
  predicate FitsItem(style: Style, s: string) {
    match style
    case Bare => Plain(s) && s != "" && ':' !in s
    case Single => Inline(s) && ':' !in s
    case Double => Inline(s) && ':' !in s
    case Block => false
  }

  predicate Sayable(w: Written)
    decreases w, 0
  {
    match w
    case WScalar(style, text) => Fits(style, text)
    case WMapping(fields) => fields != [] && SayableFields(fields)
    case WSequence(items) => items != [] && SayableItems(items)
  }

  predicate SayableItems(items: seq<Written>)
    decreases items, 3
  {
    forall i :: 0 <= i < |items| ==> SayableItem(items[i])
  }

  predicate SayableFields(fields: seq<WField>)
    decreases fields, 1
  {
    && (forall i, j :: 0 <= i < j < |fields| ==> fields[i].key != fields[j].key)
    && forall i :: 0 <= i < |fields| ==> ValidKey(fields[i].key) && Sayable(fields[i].value)
  }

  predicate SayableItem(w: Written)
    decreases w, 2
  {
    match w
    case WScalar(style, text) => FitsItem(style, text)
    case WMapping(_) => Sayable(w)
    case WSequence(_) => false
  }

  // ----- as tokens -----

  function Spell(style: Style, s: string): string {
    match style
    case Bare => s
    case Single => "'" + s + "'"
    case Double => Quoted(s)
    case Block => ""
  }

  /** What stands on a field's own line after its colon. */
  function RawText(w: Written): string { if w.WScalar? then Spell(w.style, w.text) else "" }

  function HeadText(f: WField): string { f.key + ":" + (if RawText(f.value) == "" then "" else " " + RawText(f.value)) }

  predicate IsBlock(w: Written) { w.WScalar? && w.style == Block }

  function HeadBlock(w: Written): Option<string> { if IsBlock(w) then Some(w.text) else None }

  /** The lines below the line of a field. */
  function Below(w: Written, nest: nat): seq<Line>
    decreases w, 1
  {
    match w
    case WScalar(_, _) => []
    case WMapping(fields) => FieldsLines(fields, nest)
    case WSequence(items) => ItemsLines(items, nest)
  }

  function FieldsLines(fields: seq<WField>, indent: nat): seq<Line>
    decreases fields, 2
  {
    if fields == [] then []
    else
      var f := fields[0];
      [Line(indent, HeadText(f), HeadBlock(f.value))] + (Below(f.value, indent + 2) + FieldsLines(fields[1..], indent))
  }

  /** One item; the first field of a mapping stands on the line of the dash. */
  function ItemLines(w: Written, indent: nat): seq<Line>
    decreases w, 3
  {
    match w
    case WScalar(style, text) => [Line(indent, "- " + Spell(style, text), None)]
    case WMapping(fields) =>
      if fields == [] then []
      else
        var f := fields[0];
        [Line(indent, "- " + HeadText(f), HeadBlock(f.value))]
        + (Below(f.value, indent + 4) + FieldsLines(fields[1..], indent + 2))
    case WSequence(_) => []
  }

  function ItemsLines(items: seq<Written>, indent: nat): seq<Line>
    decreases items, 4
  {
    if items == [] then [] else ItemLines(items[0], indent) + ItemsLines(items[1..], indent)
  }

  // ----- as text -----

  function Spaces(n: nat): (r: string)
    ensures |r| == n && forall i :: 0 <= i < n ==> r[i] == ' '
  {
    seq(n, _ => ' ')
  }

  function Indented(line: string, n: nat): string { if line == "" then "" else Spaces(n) + line }

  function IndentedLines(lines: seq<string>, n: nat): (r: seq<string>)
    ensures |r| == |lines| && forall i :: 0 <= i < |lines| ==> r[i] == Indented(lines[i], n)
  {
    seq(|lines|, i requires 0 <= i < |lines| => Indented(lines[i], n))
  }

  /** Which blocks are opened by the second of the two markers, and whether guards are written. */
  datatype Pen = Pen(guarded: bool, strips: Line -> bool)

  function Marker(pen: Pen, line: Line): string { if pen.strips(line) then LITERAL_STRIP else LITERAL }

  function OwnText(pen: Pen, line: Line): string {
    if line.block.Some? then line.text + Marker(pen, line)[1..] else line.text
  }

  function BlockLines(line: Line): seq<string> {
    match line.block case None => [] case Some(text) => IndentedLines(SplitFeeds(text), line.indent + 4)
  }

  function PrintLine(pen: Pen, line: Line): seq<string> { [Spaces(line.indent) + OwnText(pen, line)] + BlockLines(line) }

  /** A line that opens a block and is followed by a deeper line, which the block would take for its own. */
  predicate Swallows(lines: seq<Line>) {
    |lines| > 1 && lines[0].block.Some? && lines[0].indent < lines[1].indent
  }

  /** A comment as deep as the line that opened a block ends the block. */
  function Guard(line: Line): seq<string> { [Spaces(line.indent) + "#"] }

  function Print(pen: Pen, lines: seq<Line>): seq<string> {
    if lines == [] then []
    else PrintLine(pen, lines[0])
         + ((if pen.guarded && Swallows(lines) then Guard(lines[0]) else []) + Print(pen, lines[1..]))
  }

  /** A mapping as text. A guarded pen puts a comment where a block would swallow what follows it. */
  function Render(pen: Pen, w: Written): string
    requires w.WMapping?
  {
    Ended(Print(pen, FieldsLines(w.fields, 0)))
  }

  // ----- the canonical choice -----

  /** Double quotes where a line can hold the text, a block where it cannot. */
  function Canonical(v: Value): Written
    decreases v, 0
  {
    match v
    case Scalar(text) => WScalar(if Inline(text) then Double else Block, text)
    case Mapping(fields) => WMapping(CanonicalFields(fields))
    case Sequence(items) => WSequence(CanonicalItems(items))
  }

  function CanonicalFields(fields: seq<Field>): (r: seq<WField>)
    ensures |r| == |fields|
    decreases fields, 1
  {
    if fields == [] then []
    else [WField(fields[0].key, Canonical(fields[0].value))] + CanonicalFields(fields[1..])
  }

  function CanonicalItems(items: seq<Value>): (r: seq<Written>)
    ensures |r| == |items|
    decreases items, 1
  {
    if items == [] then [] else [Canonical(items[0])] + CanonicalItems(items[1..])
  }
}
