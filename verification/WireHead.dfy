/** The head of a response: which length an application declared, and which fields reach the wire. */
module WireHead {
  import opened Numerals
  import opened Wire

  function LowerChar(c: char): char { if 'A' <= c <= 'Z' then c + 32 as char else c }

  function Lower(s: Bytes): Bytes { seq(|s|, i requires 0 <= i < |s| => LowerChar(s[i])) }

  predicate IsSpace(c: char) { c == ' ' || '\t' <= c <= '\r' }

  function Strip(s: Bytes): Bytes {
    if s != [] && IsSpace(s[0]) then Strip(s[1..])
    else if s != [] && IsSpace(s[|s| - 1]) then Strip(s[..|s| - 1])
    else s
  }

  /** The names this server decides on itself, given as a parameter: content-length, transfer-encoding, connection. */
  datatype Names = Names(contentLength: Bytes, transferEncoding: Bytes, connection: Bytes)

  const NAMES: Names := Names("content-length", "transfer-encoding", "connection")

  /** The content length an application stated; anything but a plain decimal count is unstated. */
  function DeclaredLength(names: Names, headers: Headers): Option<nat> {
    if headers == [] then None
    else if Lower(headers[0].0) == names.contentLength then
      var text := Strip(headers[0].1);
      if IsDecimal(text) then Some(ParseDecimal(text)) else None
    else DeclaredLength(names, headers[1..])
  }

  predicate HopByHop(names: Names, name: Bytes) {
    var lower := Lower(name);
    lower == names.contentLength || lower == names.transferEncoding || lower == names.connection
  }

  function Kept(names: Names, headers: Headers): Headers {
    if headers == [] then []
    else (if HopByHop(names, headers[0].0) then [] else [headers[0]]) + Kept(names, headers[1..])
  }

  /** The framing field of a response, if it has one. */
  function FramingField(names: Names, f: Framing): Headers {
    match f
    case Silent(declared) =>
      (match declared case None => [] case Some(n) => [(names.contentLength, Decimal(n))])
    case Chunked => [(names.transferEncoding, "chunked")]
    case Length(n) => [(names.contentLength, Decimal(n))]
  }

  /** Every field of the head, in order: what the application may say, the framing, and the closing field. */
  function Fields(names: Names, headers: Headers, f: Framing): Headers {
    Kept(names, headers) + FramingField(names, f) + [(names.connection, "close")]
  }

  function Lines(fields: Headers): Bytes {
    if fields == [] then "" else CRLF + fields[0].0 + ": " + fields[0].1 + Lines(fields[1..])
  }

  function HeadBlock(names: Names, statusLine: Bytes, headers: Headers, f: Framing): Bytes {
    statusLine + Lines(Fields(names, headers, f)) + CRLF + CRLF
  }

  const INTERNAL_ERROR: Bytes := "{\"error\":\"internal_error\"}"

  /** The style of this server; `statusLine` stands for the version, the status and its phrase. */
  function Standard(statusLine: int -> Bytes): Style {
    Style(
      (headers: Headers) => DeclaredLength(NAMES, headers),
      (status: int, headers: Headers, f: Framing) => HeadBlock(NAMES, statusLine(status), headers, f),
      HeadBlock(NAMES, statusLine(500), [("content-type", "application/json")],
          Length(|INTERNAL_ERROR|)) + INTERNAL_ERROR)
  }

  // ----- what a client reads back -----

  lemma {:induction false} StripKeepsDigits(s: Bytes)
    requires forall c :: c in s ==> IsDigit(c)
    ensures Strip(s) == s
  {
    if s != "" {
      assert s[0] in s && s[|s| - 1] in s;
    }
  }

  lemma {:induction false} KeptIsClean(names: Names, headers: Headers)
    ensures forall h :: h in Kept(names, headers) <==> h in headers && !HopByHop(names, h.0)
  {
    if headers != [] {
      KeptIsClean(names, headers[1..]);
      assert forall h :: h in headers <==> h == headers[0] || h in headers[1..];
    }
  }

  lemma {:induction false} DeclaredSkips(names: Names, kept: Headers, later: Headers)
    requires forall h :: h in kept ==> Lower(h.0) != names.contentLength
    ensures DeclaredLength(names, kept + later) == DeclaredLength(names, later)
  {
    if kept != [] {
      assert kept[0] in kept;
      assert (kept + later)[1..] == kept[1..] + later;
      DeclaredSkips(names, kept[1..], later);
    } else {
      assert kept + later == later;
    }
  }

  /** Whatever lengths the application declared, a client that reads the head's fields as this server reads an
      application's finds exactly the length the framing promises, or none. */
  lemma HeadPromisesTheFraming(names: Names, headers: Headers, f: Framing)
    requires Lower(names.contentLength) == names.contentLength
    requires Lower(names.transferEncoding) != names.contentLength && Lower(names.connection) != names.contentLength
    ensures DeclaredLength(names, Fields(names, headers, f)) ==
            match f case Silent(declared) => declared case Chunked => None case Length(n) => Some(n)
  {
    var kept, framing, close := Kept(names, headers), FramingField(names, f), [(names.connection, "close")];
    KeptIsClean(names, headers);
    assert Fields(names, headers, f) == kept + (framing + close);
    DeclaredSkips(names, kept, framing + close);
    if f.Chunked? || framing == [] {
      DeclaredSkips(names, framing + close, []);
      assert framing + close + [] == framing + close;
    } else {
      var n := if f.Length? then f.length else f.declared.value;
      assert (framing + close)[0] == (names.contentLength, Decimal(n));
      DecimalParses(n);
      StripKeepsDigits(Decimal(n));
    }
  }

  /** The head carries a transfer coding exactly when the framing is chunked. */
  lemma HeadSaysChunkedIff(names: Names, headers: Headers, f: Framing)
    requires Lower(names.transferEncoding) == names.transferEncoding
    requires Lower(names.contentLength) != names.transferEncoding && Lower(names.connection) != names.transferEncoding
    ensures f.Chunked? <==> exists h :: h in Fields(names, headers, f) && Lower(h.0) == names.transferEncoding
  {
    KeptIsClean(names, headers);
    var all := Fields(names, headers, f);
    assert forall h :: h in all <==>
      h in Kept(names, headers) || h in FramingField(names, f) || h == (names.connection, "close");
    if f.Chunked? {
      assert (names.transferEncoding, "chunked") in FramingField(names, f);
    }
  }
}
