/** A client's side of whole responses: the head and the content read back from the bytes that were written (sections
    2.2, 5 and 6.3 of RFC 9112; apiserver.py:304-456). */
module WireReply {
  import opened Numerals
  import opened Wire
  import opened WireHead
  import opened WireDecoding

  // ----- reading a head -----

  predicate Break(c: char) { c == '\r' || c == '\n' }

  predicate OneLine(s: Bytes) { forall c :: c in s ==> !Break(c) }

  /** How much of a text stands before its first line break. */
  function ToBreak(s: Bytes): (n: nat)
    ensures n <= |s| && OneLine(s[..n]) && (n < |s| ==> Break(s[n]))
  {
    if s == "" || Break(s[0]) then 0
    else
      var n := 1 + ToBreak(s[1..]);
      assert s[..n] == [s[0]] + s[1..][..n - 1];
      n
  }

  /** One line and what follows it; a carriage return or line feed on its own is malformed. */
  function ReadLine(s: Bytes): (r: Option<(Bytes, Bytes)>)
    ensures r.Some? ==> OneLine(r.value.0) && |r.value.1| < |s|
  {
    var n := ToBreak(s);
    if n + 1 < |s| && s[n] == '\r' && s[n + 1] == '\n' then Some((s[..n], s[n + 2..])) else None
  }

  predicate Blank(c: char) { c == ' ' || c == '\t' }

  function Trim(s: Bytes): (r: Bytes)
    ensures forall c :: c in r ==> c in s
    ensures r != "" ==> !Blank(r[0]) && !Blank(r[|r| - 1])
  {
    if s != "" && Blank(s[0]) then Trim(s[1..])
    else if s != "" && Blank(s[|s| - 1]) then Trim(s[..|s| - 1])
    else s
  }

  predicate Trimmed(s: Bytes) { s == "" || (!Blank(s[0]) && !Blank(s[|s| - 1])) }

  function ToColon(s: Bytes): (n: nat)
    ensures n <= |s| && ':' !in s[..n] && (n < |s| ==> s[n] == ':')
  {
    if s == "" || s[0] == ':' then 0
    else
      var n := 1 + ToColon(s[1..]);
      assert s[..n] == [s[0]] + s[1..][..n - 1];
      n
  }

  function ReadField(line: Bytes): Option<(Bytes, Bytes)> {
    var n := ToColon(line);
    if n == |line| then None else Some((line[..n], Trim(line[n + 1..])))
  }

  function ReadFields(s: Bytes): Option<(Headers, Bytes)>
    decreases |s|
  {
    match ReadLine(s)
    case None => None
    case Some((line, rest)) =>
      if line == "" then Some(([], rest))
      else if ReadField(line).None? then None
      else match ReadFields(rest)
        case None => None
        case Some((others, after)) => Some(([ReadField(line).value] + others, after))
  }

  datatype Head = Head(status: Bytes, fields: Headers, rest: Bytes)

  function ReadHead(s: Bytes): Option<Head> {
    match ReadLine(s)
    case None => None
    case Some((status, rest)) =>
      match ReadFields(rest)
      case None => None
      case Some((fields, after)) => Some(Head(status, fields, after))
  }

  // ----- a written head is read back -----

  /** A field that one line can carry unchanged. */
  predicate Carried(h: (Bytes, Bytes)) { ':' !in h.0 && OneLine(h.0) && OneLine(h.1) && Trimmed(h.1) }

  predicate AllCarried(fields: Headers) { forall h :: h in fields ==> Carried(h) }

  function FieldLine(h: (Bytes, Bytes)): Bytes { h.0 + ": " + h.1 }

  function Ended(fields: Headers): Bytes {
    if fields == [] then "" else FieldLine(fields[0]) + CRLF + Ended(fields[1..])
  }

  lemma {:induction false} LinesEnded(fields: Headers)
    ensures Lines(fields) + CRLF == CRLF + Ended(fields)
  {
    if fields != [] {
      LinesEnded(fields[1..]);
      var line, later := FieldLine(fields[0]), fields[1..];
      assert Lines(fields) == CRLF + line + Lines(later);
      assert CRLF + line + Lines(later) + CRLF == CRLF + line + (Lines(later) + CRLF);
      assert CRLF + line + (CRLF + Ended(later)) == CRLF + (line + CRLF + Ended(later));
    }
  }

  lemma {:induction false} ToBreakAt(line: Bytes, rest: Bytes)
    requires OneLine(line)
    ensures ToBreak(line + CRLF + rest) == |line|
  {
    var s := line + CRLF + rest;
    if line != "" {
      assert s[0] == line[0] && line[0] in line && s[1..] == line[1..] + CRLF + rest;
      ToBreakAt(line[1..], rest);
    } else {
      assert s[0] == '\r';
    }
  }

  lemma ReadsLine(line: Bytes, rest: Bytes)
    requires OneLine(line)
    ensures ReadLine(line + CRLF + rest) == Some((line, rest))
  {
    var s := line + CRLF + rest;
    ToBreakAt(line, rest);
    assert s[|line|] == '\r' && s[|line| + 1] == '\n';
    assert s[..|line|] == line && s[|line| + 2..] == rest;
  }

  lemma {:induction false} ToColonAt(name: Bytes, rest: Bytes)
    requires ':' !in name
    ensures ToColon(name + ":" + rest) == |name|
  {
    var s := name + ":" + rest;
    if name != "" {
      assert s[0] == name[0] && name[0] in name && s[1..] == name[1..] + ":" + rest;
      ToColonAt(name[1..], rest);
    }
  }

  lemma ReadsField(h: (Bytes, Bytes))
    requires Carried(h)
    ensures ReadField(FieldLine(h)) == Some(h) && OneLine(FieldLine(h)) && FieldLine(h) != ""
  {
    var line := FieldLine(h);
    assert line == h.0 + ":" + (" " + h.1);
    ToColonAt(h.0, " " + h.1);
    assert line[..|h.0|] == h.0 && line[|h.0| + 1..] == " " + h.1;
    assert (" " + h.1)[1..] == h.1 && Trim(h.1) == h.1;
  }

  lemma {:induction false} ReadsFields(fields: Headers, content: Bytes)
    requires AllCarried(fields)
    ensures ReadFields(Ended(fields) + CRLF + content) == Some((fields, content))
  {
    hide Carried, ReadField, FieldLine;
    if fields == [] {
      assert Ended(fields) + CRLF + content == "" + CRLF + content;
      ReadsLine("", content);
    } else {
      var line, rest := FieldLine(fields[0]), Ended(fields[1..]) + CRLF + content;
      ReadsField(fields[0]);
      assert Ended(fields) + CRLF + content == line + CRLF + rest;
      ReadsLine(line, rest);
      ReadsFields(fields[1..], content);
      assert fields == [fields[0]] + fields[1..];
    }
  }

  lemma ReadsHead(statusLine: Bytes, fields: Headers, content: Bytes)
    requires OneLine(statusLine) && AllCarried(fields)
    ensures ReadHead(statusLine + Lines(fields) + CRLF + CRLF + content) == Some(Head(statusLine, fields, content))
  {
    hide Lines, ReadLine, ReadFields;
    LinesEnded(fields);
    var rest := Ended(fields) + CRLF + content;
    assert statusLine + Lines(fields) + CRLF + CRLF + content == statusLine + (Lines(fields) + CRLF) + CRLF + content;
    assert statusLine + (CRLF + Ended(fields)) + CRLF + content == statusLine + CRLF + rest;
    ReadsLine(statusLine, rest);
    ReadsFields(fields, content);
  }

  // ----- and nothing else can be read -----

  lemma ReadFieldIsCarried(line: Bytes)
    requires OneLine(line) && ReadField(line).Some?
    ensures Carried(ReadField(line).value)
  {
    var n := ToColon(line);
    assert forall c :: c in line[..n] ==> c in line;
    assert forall c :: c in line[n + 1..] ==> c in line;
  }

  lemma {:induction false} ReadFieldsAreCarried(s: Bytes)
    requires ReadFields(s).Some?
    ensures AllCarried(ReadFields(s).value.0)
    decreases |s|
  {
    hide Carried, ReadField;
    var (line, rest) := ReadLine(s).value;
    if line != "" {
      ReadFieldIsCarried(line);
      ReadFieldsAreCarried(rest);
    }
  }

  lemma ReadHeadIsCarried(s: Bytes)
    requires ReadHead(s).Some?
    ensures AllCarried(ReadHead(s).value.fields)
  {
    var (status, rest) := ReadLine(s).value;
    ReadFieldsAreCarried(rest);
  }

  // ----- the head of this server -----

  predicate Word(s: Bytes) { forall c :: c in s ==> 'a' <= c <= 'z' || c == '-' }

  lemma {:induction false} LowerWord(s: Bytes)
    requires Word(s)
    ensures Lower(s) == s && ':' !in s && OneLine(s) && Trimmed(s)
  {
    assert forall i :: 0 <= i < |s| ==> s[i] in s;
  }

  lemma WordsJoin(a: Bytes, b: Bytes)
    requires Word(a) && Word(b)
    ensures Word(a + b)
  {}

  lemma LengthName()
    ensures Word(NAMES.contentLength) && |NAMES.contentLength| == 14
  {
    WordsJoin("content", "-length");
    assert NAMES.contentLength == "content" + "-length";
  }

  lemma EncodingName()
    ensures Word(NAMES.transferEncoding) && |NAMES.transferEncoding| == 17
  {
    WordsJoin("transfer", "-encoding");
    assert NAMES.transferEncoding == "transfer" + "-encoding";
  }

  lemma NamesAreWords()
    ensures Word(NAMES.contentLength) && Word(NAMES.transferEncoding) && Word(NAMES.connection)
    ensures Word("chunked") && Word("close")
    ensures |NAMES.contentLength| == 14 && |NAMES.transferEncoding| == 17 && |NAMES.connection| == 10
  {
    LengthName();
    EncodingName();
  }

  lemma DigitsAreCarried(n: nat)
    ensures OneLine(Decimal(n)) && Trimmed(Decimal(n))
  {
    DecimalParses(n);
    var s := Decimal(n);
    assert s[0] in s && s[|s| - 1] in s;
  }

  lemma OwnFieldsCarried(f: Framing)
    ensures AllCarried(FramingField(NAMES, f) + [(NAMES.connection, "close")])
  {
    hide Trimmed, OneLine, Decimal;
    NamesAreWords();
    LowerWord(NAMES.contentLength);
    LowerWord(NAMES.transferEncoding);
    LowerWord(NAMES.connection);
    LowerWord("chunked");
    LowerWord("close");
    if f.Length? { DigitsAreCarried(f.length); }
    if f.Silent? && f.declared.Some? { DigitsAreCarried(f.declared.value); }
  }

  /** A client reads exactly the fields the server meant, and exactly the content after them, if and only if every field
      it kept of the application's can stand on one line: no line break in a name or value, no colon in a name, no blank
      around a value. The server checks none of these. */
  lemma HeadReadsIff(statusLine: Bytes, headers: Headers, f: Framing, content: Bytes)
    requires OneLine(statusLine)
    ensures ReadHead(HeadBlock(NAMES, statusLine, headers, f) + content)
            == Some(Head(statusLine, Fields(NAMES, headers, f), content))
            <==> AllCarried(Kept(NAMES, headers))
  {
    hide Carried, Kept, Lines, ReadHead, FramingField;
    var kept, own := Kept(NAMES, headers), FramingField(NAMES, f) + [(NAMES.connection, "close")];
    var fields := Fields(NAMES, headers, f);
    assert fields == kept + own;
    var s := HeadBlock(NAMES, statusLine, headers, f) + content;
    OwnFieldsCarried(f);
    if AllCarried(kept) {
      ReadsHead(statusLine, fields, content);
    }
    if ReadHead(s) == Some(Head(statusLine, fields, content)) {
      ReadHeadIsCarried(s);
      assert forall h :: h in kept ==> h in fields;
    }
  }

  /** A value with a line break in it is read as two fields, and the second can contradict the framing. */
  lemma LineBreakAddsAField(statusLine: Bytes, f: Framing, content: Bytes)
    requires OneLine(statusLine)
    ensures
      var head := ReadHead(HeadBlock(NAMES, statusLine, [("x", "a\r\nContent-Length: 0")], f) + content);
      && head.Some? && head.value.rest == content
      && head.value.fields != Fields(NAMES, [("x", "a\r\nContent-Length: 0")], f)
      && DeclaredLength(NAMES, head.value.fields) == Some(0)
  {
    hide FramingField, ReadHead;
    var broken: Headers, split: Headers := [("x", "a\r\nContent-Length: 0")], [("x", "a"), ("Content-Length", "0")];
    var own := FramingField(NAMES, f) + [(NAMES.connection, "close")];
    NamesAreWords();
    LowerOfX();
    assert Kept(NAMES, broken) == broken;
    assert Fields(NAMES, broken, f) == broken + own;
    LinesJoin(broken, own);
    LinesJoin(split, own);
    BrokenLines();
    OwnFieldsCarried(f);
    SplitCarried();
    ReadsHead(statusLine, split + own, content);
    LowerOfLength();
    assert (split + own)[0] == ("x", "a") && (split + own)[1] == ("Content-Length", "0");
    assert (split + own)[1..][0] == ("Content-Length", "0");
    assert |split + own| != |broken + own|;
    ZeroStripped();
  }

  lemma LowerOfX()
    ensures Lower("x") == "x" && !HopByHop(NAMES, "x")
  {}

  lemma LowerOfLength()
    ensures Lower("Content-Length") == NAMES.contentLength
  {}

  lemma ZeroStripped()
    ensures IsDecimal(Strip("0")) && ParseDecimal(Strip("0")) == 0
  {
    assert Strip("0") == "0" && "0"[..0] == "";
  }

  lemma SplitCarried()
    ensures Carried(("x", "a")) && Carried(("Content-Length", "0"))
  {}

  lemma BrokenLines()
    ensures Lines([("x", "a\r\nContent-Length: 0")]) == Lines([("x", "a"), ("Content-Length", "0")])
  {
    var first: (Bytes, Bytes), second: (Bytes, Bytes) := ("x", "a"), ("Content-Length", "0");
    assert [first, second][1..] == [second] && [second][1..] == [];
    assert [("x", "a\r\nContent-Length: 0")][1..] == [];
    assert "a\r\nContent-Length: 0" == "a" + CRLF + "Content-Length" + ": " + "0";
  }

  lemma {:induction false} LinesJoin(a: Headers, b: Headers)
    ensures Lines(a + b) == Lines(a) + Lines(b)
  {
    if a == [] {
      assert a + b == b;
    } else {
      assert (a + b)[1..] == a[1..] + b;
      LinesJoin(a[1..], b);
    }
  }

  // ----- whole responses -----

  /** What a client makes of a response on a connection that is closed after it. */
  datatype Reply = Answer(status: Bytes, fields: Headers, body: Bytes, rest: Bytes) | Unfinished | Unreadable

  predicate SaysChunked(fields: Headers) { exists h :: h in fields && Lower(h.0) == NAMES.transferEncoding }

  /** `silent` says that the method and the status allow no content. */
  function ReadReply(s: Bytes, silent: bool): Reply {
    match ReadHead(s)
    case None => Unreadable
    case Some(Head(status, fields, rest)) =>
      if silent then Answer(status, fields, "", rest)
      else if SaysChunked(fields) then
        match Decode(rest)
        case Complete(body, after) => Answer(status, fields, body, after)
        case Partial => Unfinished
        case Malformed => Unreadable
      else
        match DeclaredLength(NAMES, fields)
        case None => Answer(status, fields, rest, "")
        case Some(n) => if |rest| < n then Unfinished else Answer(status, fields, rest[..n], rest[n..])
  }

  /** What the fields of a head say of its framing. */
  lemma FieldsSay(headers: Headers, f: Framing)
    ensures SaysChunked(Fields(NAMES, headers, f)) <==> f.Chunked?
    ensures DeclaredLength(NAMES, Fields(NAMES, headers, f)) ==
            match f case Silent(declared) => declared case Chunked => None case Length(n) => Some(n)
  {
    NamesAreWords();
    LowerWord(NAMES.contentLength);
    LowerWord(NAMES.transferEncoding);
    LowerWord(NAMES.connection);
    HeadPromisesTheFraming(NAMES, headers, f);
    HeadSaysChunkedIff(NAMES, headers, f);
  }

  /** The client's own rule for responses without content (section 6.3 of RFC 9112): by the method it used and the status
      it reads. */
  predicate Bodiless(verb: Bytes, status: int) {
    verb == "HEAD" || status < 200 || status == 204 || status == 304
  }

  /** What a client must find in the head besides what the application may say: nothing about content where the status
      rules it out, else the length the application stated, else that the content is chunked if there is any. */
  function OwnFields(verb: Bytes, status: int, headers: Headers): Headers {
    if status < 200 || status == 204 then []
    else match DeclaredLength(NAMES, headers)
      case Some(n) => [("content-length", Decimal(n))]
      case None => if Bodiless(verb, status) then [] else [("transfer-encoding", "chunked")]
  }

  lemma ChoiceIs(statusLine: int -> Bytes, verb: Bytes, status: int, headers: Headers)
    ensures
      var f := Choose(Standard(statusLine), verb, status, headers);
      && (f.Silent? <==> Bodiless(verb, status))
      && FramingField(NAMES, f) == OwnFields(verb, status, headers)
      && (!Bodiless(verb, status) ==>
            f == match DeclaredLength(NAMES, headers) case None => Chunked case Some(n) => Length(n))
  {
    hide DeclaredLength;
  }

  /** A whole response of this server, as a client reads it by its own rule: the fields the application may say, the one
      about the content, and the closing one; the application's bodies up to its final event, cut to the length it
      declared if it declared one; visibly unfinished if it failed or sent too little; and nothing left over. */
  lemma ReplyIsTheResponse(statusLine: int -> Bytes, verb: Bytes, messages: seq<Message>, raised: bool)
    requires Begun(messages).Some? && OneLine(statusLine(Begun(messages).value.0.status))
    requires AllCarried(Kept(NAMES, Begun(messages).value.0.headers))
    ensures
      var (start, rest) := Begun(messages).value;
      var verbatim, body := statusLine(start.status), Payload(Bodies(rest));
      var fields := Kept(NAMES, start.headers) + OwnFields(verb, start.status, start.headers)
                    + [("connection", "close")];
      ReadReply(Response(Standard(statusLine), verb, messages, !raised), Bodiless(verb, start.status)) ==
      if Bodiless(verb, start.status) then Answer(verbatim, fields, "", "")
      else match DeclaredLength(NAMES, start.headers)
        case None => if Finished(rest) || !raised then Answer(verbatim, fields, body, "") else Unfinished
        case Some(n) => if n <= |body| then Answer(verbatim, fields, body[..n], "") else Unfinished
  {
    hide Response, Standard, Choose, ReadReply, Fields, Bodies, Payload, DeclaredLength, Kept, FramingField, OwnFields;
    var (start, _) := Begun(messages).value;
    ChoiceIs(statusLine, verb, start.status, start.headers);
    FramedReply(statusLine, verb, messages, raised);
    FieldsAre(start.headers, Choose(Standard(statusLine), verb, start.status, start.headers));
  }

  lemma FieldsAre(headers: Headers, f: Framing)
    ensures Fields(NAMES, headers, f) == Kept(NAMES, headers) + FramingField(NAMES, f) + [("connection", "close")]
  {
    hide Kept, FramingField;
  }

  /** The refusal sent when an application fails before it starts is a whole reply of its own. */
  lemma RefusalIsAReply(statusLine: int -> Bytes)
    requires OneLine(statusLine(500))
    ensures ReadReply(Standard(statusLine).refusal, false) ==
            Answer(statusLine(500),
                   [("content-type", "application/json"), ("content-length", Decimal(|INTERNAL_ERROR|)),
                    ("connection", "close")], INTERNAL_ERROR, "")
  {
    hide ReadHead, Decode, Fields, DeclaredLength, Kept, SaysChunked, Decimal;
    var headers: Headers := [("content-type", "application/json")];
    var f := Length(|INTERNAL_ERROR|);
    KeptJson();
    HeadReadsIff(statusLine(500), headers, f, INTERNAL_ERROR);
    FieldsSay(headers, f);
    FieldsAre(headers, f);
    assert headers + FramingField(NAMES, f) + [("connection", "close")]
           == [("content-type", "application/json"), ("content-length", Decimal(|INTERNAL_ERROR|)),
               ("connection", "close")];
    assert INTERNAL_ERROR[..|INTERNAL_ERROR|] == INTERNAL_ERROR && INTERNAL_ERROR[|INTERNAL_ERROR|..] == "";
  }

  lemma KeptJson()
    ensures
      var headers: Headers := [("content-type", "application/json")];
      Kept(NAMES, headers) == headers && AllCarried(headers)
  {
    var name := "content-type";
    assert |name| == 12 && |Lower(name)| == 12;
    NamesAreWords();
    var headers: Headers := [(name, "application/json")];
    assert headers[1..] == [];
  }

  /** The same in terms of the framing that the writer chose. */
  lemma FramedReply(statusLine: int -> Bytes, verb: Bytes, messages: seq<Message>, raised: bool)
    requires Begun(messages).Some? && OneLine(statusLine(Begun(messages).value.0.status))
    requires AllCarried(Kept(NAMES, Begun(messages).value.0.headers))
    ensures
      var (start, rest) := Begun(messages).value;
      var style := Standard(statusLine);
      var f, body := Choose(style, verb, start.status, start.headers), Payload(Bodies(rest));
      var fields := Fields(NAMES, start.headers, f);
      ReadReply(Response(style, verb, messages, !raised), f.Silent?) ==
      match f
      case Silent(_) => Answer(statusLine(start.status), fields, "", "")
      case Chunked =>
        if Finished(rest) || !raised then Answer(statusLine(start.status), fields, body, "") else Unfinished
      case Length(n) => if n <= |body| then Answer(statusLine(start.status), fields, body[..n], "") else Unfinished
  {
    hide ReadHead, Decode, Fields, Bodies, Payload, Chunks, DeclaredLength, Kept, HeadBlock, Begun, SaysChunked;
    var (start, rest) := Begun(messages).value;
    var style := Standard(statusLine);
    var f := Choose(style, verb, start.status, start.headers);
    var content := Content(f, Bodies(rest), Finished(rest) || !raised);
    var block := HeadBlock(NAMES, statusLine(start.status), start.headers, f);
    assert Response(style, verb, messages, !raised) == block + content;
    HeadReadsIff(statusLine(start.status), start.headers, f, content);
    FieldsSay(start.headers, f);
    if f.Chunked? {
      ChunkedResponse(style, verb, messages, raised);
    }
    if f.Length? {
      assert content[..|content|] == content && content[|content|..] == "";
    }
  }
}
