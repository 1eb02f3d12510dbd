/** Text operations of the strict workflow parser (workflow_yaml_parser.py:14-18, 129-192). */
module YamlText {

  datatype Result<+T> = Ok(value: T) | Fail

  datatype Option<+T> = None | Some(value: T)

  // ----- characters -----

  /** Where a text is split into lines. */
  predicate LineBreak(c: char) {
    '\n' <= c <= '\r' || '\U{1C}' <= c <= '\U{1E}' || c == '\U{85}' || c == '\U{2028}' || c == '\U{2029}'
  }

  predicate Whitespace(c: char) {
    || '\t' <= c <= '\r' || '\U{1C}' <= c <= ' ' || c == '\U{85}' || c == '\U{A0}' || c == '\U{1680}'
    || '\U{2000}' <= c <= '\U{200A}' || c == '\U{2028}' || c == '\U{2029}' || c == '\U{202F}' || c == '\U{205F}'
    || c == '\U{3000}'
  }

  predicate Alphanumeric(c: char) { 'A' <= c <= 'Z' || 'a' <= c <= 'z' || '0' <= c <= '9' }

  predicate KeyChar(c: char) { Alphanumeric(c) || c == '_' || c == '.' || c == '-' }

  predicate NameChar(c: char) { Alphanumeric(c) || c == '_' || c == '-' }

  predicate ValidKey(key: string) { key != "" && Alphanumeric(key[0]) && forall c :: c in key ==> KeyChar(c) }

  // ----- stripping -----

  /** How many spaces a line starts with. */
  function Indent(s: string): (n: nat)
    ensures n <= |s| && (forall i :: 0 <= i < n ==> s[i] == ' ') && (n < |s| ==> s[n] != ' ')
  {
    if s == "" || s[0] != ' ' then 0 else 1 + Indent(s[1..])
  }

  function RStrip(s: string): (r: string)
    ensures r <= s && (r != "" ==> !Whitespace(r[|r| - 1]))
  {
    if s != "" && Whitespace(s[|s| - 1]) then RStrip(s[..|s| - 1]) else s
  }

  function LStrip(s: string): (r: string)
    ensures |r| <= |s| && r == s[|s| - |r|..] && (r != "" ==> !Whitespace(r[0]))
  {
    if s != "" && Whitespace(s[0]) then LStrip(s[1..]) else s
  }

  function Strip(s: string): string { LStrip(RStrip(s)) }

  predicate Blank(s: string) { forall c :: c in s ==> Whitespace(c) }

  predicate EndsWith(s: string, tail: string) { |tail| <= |s| && s[|s| - |tail|..] == tail }

  // ----- scalars -----

  predicate Boundary(c: char) { Whitespace(c) || c == '[' || c == '{' || c == ',' }

  /** An anchor, an alias or a tag starts here. */
  predicate NodeAt(v: string, i: nat)
    requires i < |v|
  {
    && (i == 0 || Boundary(v[i - 1]))
    && (v[i] == '!' || ((v[i] == '&' || v[i] == '*') && i + 1 < |v| && NameChar(v[i + 1])))
  }

  predicate Unsupported(v: string) { exists i :: 0 <= i < |v| && NodeAt(v, i) }

  predicate Quote(c: char) { c == '"' || c == '\'' }

  function Unquote(v: string): string {
    if |v| >= 2 && v[0] == v[|v| - 1] && Quote(v[0]) then v[1..|v| - 1] else v
  }

  predicate Refused(v: string) { '#' in v || '\\' in v || Unsupported(v) }

  function PlainScalar(v: string): Result<string> { if Refused(v) then Fail else Ok(Unquote(v)) }

  /** The text before the first colon. */
  function BeforeColon(text: string): (r: string)
    ensures r <= text && ':' !in r && (|r| < |text| ==> text[|r|] == ':')
  {
    if text == "" || text[0] == ':' then "" else [text[0]] + BeforeColon(text[1..])
  }

  function Entry(text: string): Result<(string, string)> {
    var key := BeforeColon(text);
    if |key| == |text| || !ValidKey(key) then Fail else Ok((key, Strip(text[|key| + 1..])))
  }

  // ----- lines -----

  function ToBreak(s: string): (n: nat)
    ensures n <= |s| && (forall i :: 0 <= i < n ==> !LineBreak(s[i])) && (n < |s| ==> LineBreak(s[n]))
  {
    if s == "" || LineBreak(s[0]) then 0 else 1 + ToBreak(s[1..])
  }

  predicate Unbroken(s: string) { forall c :: c in s ==> !LineBreak(c) }

  /** The lines of a text; a carriage return and the line feed after it end one line. */
  function SplitLines(content: string): (r: seq<string>)
    ensures forall i :: 0 <= i < |r| ==> Unbroken(r[i])
    decreases |content|
  {
    if content == "" then []
    else
      var n := ToBreak(content);
      if n == |content| then [content]
      else
        var width := if content[n] == '\r' && n + 1 < |content| && content[n + 1] == '\n' then 2 else 1;
        [content[..n]] + SplitLines(content[n + width..])
  }

  /** Lines as one text, each ended. */
  function Ended(lines: seq<string>): string {
    if lines == [] then "" else lines[0] + "\n" + Ended(lines[1..])
  }

  lemma {:induction false} ToBreakAt(line: string, rest: string)
    requires Unbroken(line)
    ensures ToBreak(line + "\n" + rest) == |line|
  {
    var whole := line + "\n" + rest;
    assert whole[|line|] == '\n' && LineBreak('\n');
    assert forall i :: 0 <= i < |line| ==> whole[i] == line[i] && line[i] in line;
  }

  lemma {:induction false} SplitEnded(lines: seq<string>)
    requires forall i :: 0 <= i < |lines| ==> Unbroken(lines[i])
    ensures SplitLines(Ended(lines)) == lines
  {
    if lines != [] {
      ToBreakAt(lines[0], Ended(lines[1..]));
      SplitEnded(lines[1..]);
      var content := Ended(lines);
      assert content[..|lines[0]|] == lines[0];
      assert content[|lines[0]| + 1..] == Ended(lines[1..]);
      assert content[|lines[0]|] == '\n';
      assert lines == [lines[0]] + lines[1..];
    }
  }

  // ----- the lines of one block -----

  function JoinLines(lines: seq<string>): string {
    if lines == [] then "" else if |lines| == 1 then lines[0] else lines[0] + "\n" + JoinLines(lines[1..])
  }

  function SplitFeeds(s: string): (r: seq<string>)
    ensures r != []
  {
    if s == "" then [""]
    else if s[0] == '\n' then [""] + SplitFeeds(s[1..])
    else
      var others := SplitFeeds(s[1..]);
      [[s[0]] + others[0]] + others[1..]
  }

  lemma JoinLonger(c: char, first: string, others: seq<string>)
    ensures JoinLines([[c] + first] + others) == [c] + JoinLines([first] + others)
    ensures JoinLines([""] + ([first] + others)) == "\n" + JoinLines([first] + others)
  {
    var lines, longer := [first] + others, [[c] + first] + others;
    assert lines[1..] == others == longer[1..];
    assert ([""] + lines)[1..] == lines;
    if others != [] {
      assert [c] + first + "\n" + JoinLines(others) == [c] + (first + "\n" + JoinLines(others));
    }
  }

  lemma {:induction false} JoinSplit(s: string)
    ensures JoinLines(SplitFeeds(s)) == s
  {
    if s != "" {
      JoinSplit(s[1..]);
      var later := SplitFeeds(s[1..]);
      JoinLonger(s[0], later[0], later[1..]);
      assert later == [later[0]] + later[1..] && s == [s[0]] + s[1..];
    }
  }

  lemma {:induction false} SplitOneFeed(line: string, rest: string)
    requires '\n' !in line
    ensures SplitFeeds(line + "\n" + rest) == [line] + SplitFeeds(rest)
  {
    if line != "" {
      assert (line + "\n" + rest)[1..] == line[1..] + "\n" + rest;
      SplitOneFeed(line[1..], rest);
      assert line == [line[0]] + line[1..];
    } else {
      assert ("" + "\n" + rest)[1..] == rest;
    }
  }

  lemma {:induction false} SplitNoFeed(line: string)
    requires '\n' !in line
    ensures SplitFeeds(line) == [line]
  {
    if line != "" {
      SplitNoFeed(line[1..]);
      assert line == [line[0]] + line[1..];
    }
  }

  lemma {:induction false} SplitJoin(lines: seq<string>)
    requires lines != [] && forall i :: 0 <= i < |lines| ==> '\n' !in lines[i]
    ensures SplitFeeds(JoinLines(lines)) == lines
  {
    if |lines| == 1 {
      SplitNoFeed(lines[0]);
    } else {
      SplitOneFeed(lines[0], JoinLines(lines[1..]));
      SplitJoin(lines[1..]);
      assert lines == [lines[0]] + lines[1..];
    }
  }
}
