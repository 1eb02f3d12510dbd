/** A client's side of chunked transfer coding (section 7.1 of RFC 9112, without extensions or trailers),
    and what it makes of the bytes this server writes. */
module WireDecoding {
  import opened Wire

  datatype Decoded = Complete(body: Bytes, rest: Bytes) | Partial | Malformed

  datatype Size = Sized(size: nat, rest: Bytes) | SizePartial | SizeMalformed

  function HexValue(c: char): Option<nat> {
    if '0' <= c <= '9' then Some(c as int - '0' as int)
    else if 'a' <= c <= 'f' then Some(c as int - 'a' as int + 10)
    else if 'A' <= c <= 'F' then Some(c as int - 'A' as int + 10)
    else None
  }

  /** Read a chunk size; `some` says that a digit was already read. */
  function ReadSize(s: Bytes, value: nat, some: bool): (r: Size)
    ensures r.Sized? ==> |r.rest| < |s|
  {
    if s == "" then SizePartial
    else if HexValue(s[0]).Some? then ReadSize(s[1..], 16 * value + HexValue(s[0]).value, true)
    else if s[0] != '\r' || !some then SizeMalformed
    else if |s| == 1 then SizePartial
    else if s[1] != '\n' then SizeMalformed
    else Sized(value, s[2..])
  }

  /** Read a line end: none yet, a wrong one, or what follows it. */
  function ReadCrlf(s: Bytes): (r: Size)
    ensures r.Sized? ==> |s| == |r.rest| + 2
  {
    if s == "" || s == "\r" then SizePartial
    else if s[0] != '\r' || s[1] != '\n' then SizeMalformed
    else Sized(0, s[2..])
  }

  function Decode(s: Bytes): Decoded
    decreases |s|
  {
    match ReadSize(s, 0, false)
    case SizePartial => Partial
    case SizeMalformed => Malformed
    case Sized(size, rest) =>
      if size == 0 then
        match ReadCrlf(rest)
        case SizePartial => Partial
        case SizeMalformed => Malformed
        case Sized(_, after) => Complete("", after)
      else if |rest| < size then Partial
      else
        match ReadCrlf(rest[size..])
        case SizePartial => Partial
        case SizeMalformed => Malformed
        case Sized(_, after) => Prepend(rest[..size], Decode(after))
  }

  /** The verdict on a message whose first chunk carried `data`. */
  function Prepend(data: Bytes, d: Decoded): Decoded {
    match d case Complete(body, rest) => Complete(data + body, rest) case other => other
  }

  // ----- numbers survive -----

  lemma HexDigitValue(d: nat)
    requires d < 16
    ensures HexValue(HexDigit(d)) == Some(d)
  {
  }

  lemma {:induction false} ReadsHex(n: nat, rest: Bytes)
    ensures ReadSize(Hex(n) + rest, 0, false) == ReadSize(rest, n, true)
  {
    HexDigitValue(n % 16);
    if n < 16 {
      assert ([HexDigit(n)] + rest)[1..] == rest;
    } else {
      assert Hex(n) + rest == Hex(n / 16) + ([HexDigit(n % 16)] + rest);
      ReadsHex(n / 16, [HexDigit(n % 16)] + rest);
      assert ([HexDigit(n % 16)] + rest)[1..] == rest;
    }
  }

  // ----- decoding what was written -----

  lemma DecodeChunk(body: Bytes, rest: Bytes)
    requires body != ""
    ensures Decode(Chunk(body) + rest) == Prepend(body, Decode(rest))
  {
    var s := Chunk(body) + rest;
    var after := body + CRLF + rest;
    assert s == Hex(|body|) + (CRLF + after);
    ReadsHex(|body|, CRLF + after);
    assert (CRLF + after)[2..] == after;
    assert after[..|body|] == body && after[|body|..] == CRLF + rest;
    assert (CRLF + rest)[2..] == rest;
  }

  lemma DecodeLast(rest: Bytes)
    ensures Decode(LAST_CHUNK + rest) == Complete("", rest)
  {
    var s := LAST_CHUNK + rest;
    assert s[1..] == "\r\n\r\n" + rest;
    assert s[1..][2..] == "\r\n" + rest;
    assert ("\r\n" + rest)[2..] == rest;
    assert ReadSize(s, 0, false) == ReadSize(s[1..], 0, true);
  }

  lemma PrependTwice(a: Bytes, b: Bytes, d: Decoded)
    ensures Prepend(a, Prepend(b, d)) == Prepend(a + b, d)
  {
    if d.Complete? { assert a + (b + d.body) == (a + b) + d.body; }
  }

  /** Chunks decode to the concatenated bodies, and empty bodies leave no trace. */
  lemma {:induction false} DecodeChunks(bodies: seq<Bytes>, rest: Bytes)
    ensures Decode(Chunks(bodies) + rest) == Prepend(Payload(bodies), Decode(rest))
  {
    hide Decode, Chunk;
    if bodies == [] {
      assert Chunks(bodies) + rest == rest;
      if Decode(rest).Complete? { assert "" + Decode(rest).body == Decode(rest).body; }
    } else {
      var later := Chunks(bodies[1..]) + rest;
      DecodeChunks(bodies[1..], rest);
      PrependTwice(bodies[0], Payload(bodies[1..]), Decode(rest));
      if bodies[0] == "" {
        assert Chunks(bodies) + rest == later;
        assert bodies[0] + Payload(bodies[1..]) == Payload(bodies[1..]);
      } else {
        assert Chunks(bodies) + rest == Chunk(bodies[0]) + later;
        DecodeChunk(bodies[0], later);
      }
    }
  }

  // ----- no prefix passes for the whole -----

  lemma {:induction false} ReadSizeExtends(s: Bytes, t: Bytes, value: nat, some: bool)
    ensures ReadSize(s, value, some).Sized? ==>
              ReadSize(s + t, value, some)
              == Sized(ReadSize(s, value, some).size, ReadSize(s, value, some).rest + t)
    ensures ReadSize(s, value, some).SizeMalformed? ==> ReadSize(s + t, value, some).SizeMalformed?
  {
    if s != "" {
      assert (s + t)[1..] == s[1..] + t;
      if |s| > 1 { assert (s + t)[2..] == s[2..] + t; }
      if HexValue(s[0]).Some? {
        ReadSizeExtends(s[1..], t, 16 * value + HexValue(s[0]).value, true);
      }
    }
  }

  lemma ReadCrlfExtends(s: Bytes, t: Bytes)
    ensures ReadCrlf(s).Sized? ==> ReadCrlf(s + t) == Sized(0, ReadCrlf(s).rest + t)
    ensures ReadCrlf(s).SizeMalformed? ==> ReadCrlf(s + t).SizeMalformed?
  {
    if |s| >= 2 { assert (s + t)[2..] == s[2..] + t; }
  }

  /** A verdict on some bytes stands whatever follows them. */
  lemma {:induction false} VerdictStands(s: Bytes, t: Bytes)
    ensures Decode(s).Complete? ==> Decode(s + t) == Complete(Decode(s).body, Decode(s).rest + t)
    ensures Decode(s).Malformed? ==> Decode(s + t).Malformed?
    decreases |s|
  {
    ReadSizeExtends(s, t, 0, false);
    var size := ReadSize(s, 0, false);
    if size.Sized? {
      if size.size == 0 {
        ReadCrlfExtends(size.rest, t);
      } else if |size.rest| >= size.size {
        assert (size.rest + t)[..size.size] == size.rest[..size.size];
        assert (size.rest + t)[size.size..] == size.rest[size.size..] + t;
        ReadCrlfExtends(size.rest[size.size..], t);
        var after := ReadCrlf(size.rest[size.size..]);
        if after.Sized? { VerdictStands(after.rest, t); }
      }
    }
  }

  /** No strict prefix of a complete message decodes as complete, or as anything but unfinished. */
  lemma StrictPrefixIsPartial(s: Bytes, t: Bytes)
    requires Decode(s + t).Complete? && Decode(s + t).rest == "" && t != ""
    ensures Decode(s).Partial?
  {
    VerdictStands(s, t);
  }

  // ----- the response a client sees -----

  /** What follows the head of the response to these messages. */
  function Sent(style: Style, verb: Bytes, messages: seq<Message>, closed: bool): Bytes
    requires Begun(messages).Some?
  {
    var (start, rest) := Begun(messages).value;
    Content(Choose(style, verb, start.status, start.headers), Bodies(rest), Finished(rest) || closed)
  }

  /** A chunked response decodes to exactly the bodies up to the first final event when the application
      finished or returned; otherwise it, like each of its strict prefixes, is visibly unfinished. */
  lemma ChunkedResponse(style: Style, verb: Bytes, messages: seq<Message>, raised: bool)
    requires Begun(messages).Some?
    requires
      var (start, _) := Begun(messages).value;
      Choose(style, verb, start.status, start.headers) == Chunked
    ensures
      var (_, rest) := Begun(messages).value;
      var sent := Sent(style, verb, messages, !raised);
      && (Finished(rest) || !raised ==> Decode(sent) == Complete(Payload(Bodies(rest)), ""))
      && (!Finished(rest) && raised ==> Decode(sent).Partial?)
      && (forall k :: 0 <= k < |sent| ==> Decode(sent[..k]).Partial?)
  {
    hide Decode, Chunks, Payload, Bodies, Begun, Finished;
    var (start, rest) := Begun(messages).value;
    var sent := Sent(style, verb, messages, !raised);
    var whole := Chunks(Bodies(rest)) + LAST_CHUNK;
    WholeDecodes(Bodies(rest));
    PrefixesArePartial(whole);
    assert sent == if Finished(rest) || !raised then whole else Chunks(Bodies(rest)) + "";
    assert Chunks(Bodies(rest)) + "" == whole[..|Chunks(Bodies(rest))|];
    assert forall k :: 0 <= k < |sent| ==> sent[..k] == whole[..k];
  }

  lemma WholeDecodes(bodies: seq<Bytes>)
    ensures Decode(Chunks(bodies) + LAST_CHUNK) == Complete(Payload(bodies), "")
  {
    hide Decode;
    DecodeLast("");
    assert LAST_CHUNK + "" == LAST_CHUNK;
    DecodeChunks(bodies, LAST_CHUNK);
    assert Payload(bodies) + "" == Payload(bodies);
  }

  lemma PrefixesArePartial(whole: Bytes)
    requires Decode(whole).Complete? && Decode(whole).rest == ""
    ensures forall k :: 0 <= k < |whole| ==> Decode(whole[..k]).Partial?
  {
    hide Decode;
    forall k | 0 <= k < |whole| ensures Decode(whole[..k]).Partial? {
      assert whole == whole[..k] + whole[k..];
      StrictPrefixIsPartial(whole[..k], whole[k..]);
    }
  }

  /** Under a declared length the content is the prefix of the bodies of length min(declared, total): never
      more than promised, and short of it exactly when the application sent less. */
  lemma LengthResponse(style: Style, verb: Bytes, messages: seq<Message>, raised: bool)
    requires Begun(messages).Some?
    requires
      var (start, _) := Begun(messages).value;
      Choose(style, verb, start.status, start.headers).Length?
    ensures
      var (start, rest) := Begun(messages).value;
      var declared := Choose(style, verb, start.status, start.headers).length;
      var sent := Sent(style, verb, messages, !raised);
      && sent <= Payload(Bodies(rest))
      && |sent| == (if declared <= |Payload(Bodies(rest))| then declared else |Payload(Bodies(rest))|)
      && style.declared(start.headers) == Some(declared)
  {
  }

  /** A HEAD request is answered with the framing its GET would get, or with none, and with no content. */
  lemma HeadMirrorsGet(style: Style, verb: Bytes, status: int, headers: Headers, bodies: seq<Bytes>, closed: bool)
    requires !ForbidsContent(status) && status != 304 && verb != "HEAD"
    ensures Content(Choose(style, "HEAD", status, headers), bodies, closed) == ""
    ensures Choose(style, "HEAD", status, headers).Silent?
    ensures Choose(style, "HEAD", status, headers).declared.Some?
            <==> Choose(style, verb, status, headers).Length?
    ensures Choose(style, verb, status, headers).Length? ==>
              Choose(style, "HEAD", status, headers).declared.value == Choose(style, verb, status, headers).length
  {
  }
}
