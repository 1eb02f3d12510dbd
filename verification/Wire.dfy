/** Response framing on the wire (apiserver.py). Bytes are written as characters, one per byte. */
module Wire {

  datatype Option<+T> = None | Some(value: T)

  type Bytes = string

  const CRLF: Bytes := "\r\n"
  const LAST_CHUNK: Bytes := "0\r\n\r\n"

  datatype Message =
    | Start(status: int, headers: Headers)
    | Body(body: Bytes, more: bool)
    | Other

  // ----- numbers -----

  function HexDigit(d: nat): char
    requires d < 16
  {
    if d < 10 then '0' + d as char else 'a' + (d - 10) as char
  }

  function Hex(n: nat): Bytes {
    if n < 16 then [HexDigit(n)] else Hex(n / 16) + [HexDigit(n % 16)]
  }

  // ----- framing -----

  predicate ForbidsContent(status: int) { status < 200 || status == 204 }

  predicate CarriesNoContent(verb: Bytes, status: int) {
    ForbidsContent(status) || verb == "HEAD" || status == 304
  }

  datatype Framing = Silent(declared: Option<nat>) | Chunked | Length(length: nat)

  function Choose(style: Style, verb: Bytes, status: int, headers: Headers): Framing {
    var declared := style.declared(headers);
    if ForbidsContent(status) then Silent(None)
    else if CarriesNoContent(verb, status) then Silent(declared)
    else match declared case None => Chunked case Some(n) => Length(n)
  }

  type Headers = seq<(Bytes, Bytes)>

  /** How a head is read and written (see WireHead): the length an application declared, the bytes of a head
      under one framing, and the whole refusal sent when an application fails before it starts. */
  datatype Style = Style(declared: Headers -> Option<nat>, block: (int, Headers, Framing) -> Bytes, refusal: Bytes)

  // ----- the response as a function of what the application sent -----

  function Chunk(body: Bytes): Bytes { Hex(|body|) + CRLF + body + CRLF }

  /** The bodies that reach the wire: those up to and including the first final one. */
  function Bodies(messages: seq<Message>): seq<Bytes> {
    if messages == [] then []
    else if !messages[0].Body? then Bodies(messages[1..])
    else if messages[0].more then [messages[0].body] + Bodies(messages[1..])
    else [messages[0].body]
  }

  predicate Finished(messages: seq<Message>) { exists m :: m in messages && m.Body? && !m.more }

  function Payload(bodies: seq<Bytes>): Bytes {
    if bodies == [] then "" else bodies[0] + Payload(bodies[1..])
  }

  function Chunks(bodies: seq<Bytes>): Bytes {
    if bodies == [] then "" else (if bodies[0] == "" then "" else Chunk(bodies[0])) + Chunks(bodies[1..])
  }

  function Take(s: Bytes, n: nat): Bytes { if |s| <= n then s else s[..n] }

  /** What follows the head: `closed` says that the framing was terminated. */
  function Content(f: Framing, bodies: seq<Bytes>, closed: bool): Bytes {
    match f
    case Silent(_) => ""
    case Chunked => Chunks(bodies) + (if closed then LAST_CHUNK else "")
    case Length(n) => Take(Payload(bodies), n)
  }

  /** The first start message and what follows it. */
  function Begun(messages: seq<Message>): (r: Option<(Message, seq<Message>)>)
    ensures r.Some? ==> r.value.0.Start? && r.value.0 in messages
    ensures r.None? ==> forall m :: m in messages ==> !m.Start?
  {
    if messages == [] then None
    else if messages[0].Start? then Some((messages[0], messages[1..]))
    else Begun(messages[1..])
  }

  /** The bytes written after these messages: nothing before a start, then its head and content. `closed`
      says that the framing was terminated from outside, after the application had returned. */
  function Response(style: Style, verb: Bytes, messages: seq<Message>, closed: bool): Bytes {
    match Begun(messages)
    case None => ""
    case Some((start, rest)) =>
      var f := Choose(style, verb, start.status, start.headers);
      style.block(start.status, start.headers, f) + Content(f, Bodies(rest), Finished(rest) || closed)
  }

  // ----- the writer object -----

  class Connection {
    const style: Style
    const verb: Bytes
    var written: Bytes
    var started: bool
    var ended: bool
    var silent: bool
    var chunked: bool
    var remaining: nat

    /** Every message absorbed so far, and whether the framing was terminated from outside. */
    ghost var seen: seq<Message>
    ghost var closed: bool

    /** The flags say framing `f` with the first `n` content bytes already written. */
    ghost predicate Frames(f: Framing, n: nat)
      reads this
    {
      match f
      case Silent(_) => silent && !chunked
      case Chunked => !silent && chunked
      case Length(length) => !silent && !chunked && remaining == if n <= length then length - n else 0
    }

    ghost predicate Valid()
      reads this
    {
      && written == Response(style, verb, seen, closed)
      && match Begun(seen)
         case None => !started && !ended && !silent && !chunked && remaining == 0
         case Some((start, rest)) =>
           && started && ended == (Finished(rest) || closed)
           && Frames(Choose(style, verb, start.status, start.headers), |Payload(Bodies(rest))|)
    }

    constructor (style: Style, verb: Bytes)
      ensures this.style == style && this.verb == verb
      ensures Valid() && seen == [] && !closed
    {
      this.style, this.verb := style, verb;
      written, started, ended, silent, chunked, remaining := "", false, false, false, false, 0;
      seen, closed := [], false;
    }

    /** Put one ASGI response event on the wire. */
    method Absorb(message: Message)
      requires Valid() && !closed
      modifies this
      ensures Valid() && !closed && seen == old(seen) + [message]
    {
      if message.Start? && !started {
        Begin(message);
      } else if message.Body? && started && !ended {
        Continue(message.body, message.more);
      } else {
        ResponseIgnores(style, verb, seen, message);
        seen := seen + [message];
      }
    }

    method Begin(start: Message)
      requires Valid() && !closed && start.Start? && !started
      modifies this
      ensures Valid() && !closed && seen == old(seen) + [start]
    {
      BegunSnoc(seen, start);
      started := true;
      var declared := style.declared(start.headers);
      var framing;
      if ForbidsContent(start.status) {
        silent := true;
        framing := Silent(None);
      } else if CarriesNoContent(verb, start.status) {
        silent := true;
        framing := Silent(declared);
      } else if declared.None? {
        chunked := true;
        framing := Chunked;
      } else {
        remaining := declared.value;
        framing := Length(declared.value);
      }
      written := written + style.block(start.status, start.headers, framing);
      seen := seen + [start];
    }

    /** Write one body event, and close the framing when it is the last. */
    method Continue(body: Bytes, more: bool)
      requires Valid() && !closed && started && !ended
      modifies this
      ensures Valid() && !closed && seen == old(seen) + [Body(body, more)]
    {
      hide Begun, Bodies, Finished, Payload, Choose, Content;
      ghost var start, rest := Begun(seen).value.0, Begun(seen).value.1;
      ghost var f := Choose(style, verb, start.status, start.headers);
      ResponseGrows(style, verb, seen, body, more);
      if body != "" && !silent {
        Write(body, f, |Payload(Bodies(rest))|);
      }
      if !more {
        Terminate();
      }
      seen := seen + [Body(body, more)];
    }

    /** Write one body chunk under whichever framing was chosen. */
    method Write(chunk: Bytes, ghost f: Framing, ghost n: nat)
      requires !silent && chunk != "" && Frames(f, n)
      modifies this`written, this`remaining
      ensures Frames(f, n + |chunk|) && written == old(written) + Encoded(f, n, chunk)
    {
      if chunked {
        written := written + Hex(|chunk|) + CRLF + chunk + CRLF;
      } else {
        var sent := chunk[..if |chunk| <= remaining then |chunk| else remaining];
        if sent != "" {
          remaining := remaining - |sent|;
          written := written + sent;
        }
      }
    }

    method Terminate()
      modifies this`ended, this`written
      ensures ended
      ensures written == old(written) + (if !old(ended) && chunked then LAST_CHUNK else "")
    {
      if !ended {
        ended := true;
        if chunked {
          written := written + LAST_CHUNK;
        }
      }
    }

    /** Terminate the framing, if this response has one left to terminate. */
    method End()
      requires Valid() && started
      modifies this
      ensures Valid() && closed && seen == old(seen)
    {
      Terminate();
      closed := true;
    }
  }

  /** What one more body adds to the content when `n` bytes of it are already out. */
  function Encoded(f: Framing, n: nat, body: Bytes): Bytes {
    match f
    case Silent(_) => ""
    case Chunked => if body == "" then "" else Chunk(body)
    case Length(length) => Take(body, if n <= length then length - n else 0)
  }

  /** Drive one application run: absorb what it sends, then end the response unless it failed part way. */
  method Invoke(style: Style, verb: Bytes, messages: seq<Message>, raised: bool) returns (written: Bytes)
    ensures written == if Begun(messages).Some? then Response(style, verb, messages, !raised) else style.refusal
  {
    var wire := new Connection(style, verb);
    var i := 0;
    while i < |messages|
      invariant 0 <= i <= |messages|
      invariant wire.Valid() && !wire.closed && wire.seen == messages[..i] && wire.verb == verb
      invariant wire.style == style && fresh(wire)
    {
      wire.Absorb(messages[i]);
      i := i + 1;
    }
    assert messages[..i] == messages;
    if !wire.started {
      return style.refusal;
    }
    if !raised {
      wire.End();
    }
    written := wire.written;
  }

  // ----- one more body -----

  lemma {:induction false} PayloadSnoc(bodies: seq<Bytes>, body: Bytes)
    ensures Payload(bodies + [body]) == Payload(bodies) + body
  {
    if bodies != [] {
      assert (bodies + [body])[1..] == bodies[1..] + [body];
      PayloadSnoc(bodies[1..], body);
    }
  }

  lemma {:induction false} ChunksSnoc(bodies: seq<Bytes>, body: Bytes)
    ensures Chunks(bodies + [body]) == Chunks(bodies) + (if body == "" then "" else Chunk(body))
  {
    if bodies != [] {
      assert (bodies + [body])[1..] == bodies[1..] + [body];
      ChunksSnoc(bodies[1..], body);
    }
  }

  lemma ResponseIs(style: Style, verb: Bytes, messages: seq<Message>, start: Message, rest: seq<Message>)
    requires Begun(messages) == Some((start, rest))
    ensures start.Start?
    ensures
      var f := Choose(style, verb, start.status, start.headers);
      Response(style, verb, messages, false)
      == style.block(start.status, start.headers, f) + Content(f, Bodies(rest), Finished(rest))
  {
  }

  lemma ContentCloses(f: Framing, bodies: seq<Bytes>, closed: bool)
    ensures Content(f, bodies, closed) == Content(f, bodies, false) + (if closed && f.Chunked? then LAST_CHUNK else "")
  {
  }

  /** A message that is not acted on adds nothing to the response. */
  lemma ResponseIgnores(style: Style, verb: Bytes, messages: seq<Message>, m: Message)
    requires
      match Begun(messages)
      case None => !m.Start?
      case Some((_, rest)) => !m.Body? || Finished(rest)
    ensures Response(style, verb, messages + [m], false) == Response(style, verb, messages, false)
    ensures Begun(messages).None? ==> Begun(messages + [m]).None?
    ensures Begun(messages).Some? ==>
              var (start, rest) := Begun(messages).value;
              Begun(messages + [m]) == Some((start, rest + [m])) && Bodies(rest + [m]) == Bodies(rest)
              && Finished(rest + [m]) == Finished(rest)
  {
    BegunSnoc(messages, m);
    if Begun(messages).Some? {
      var (start, rest) := Begun(messages).value;
      BodiesSnoc(rest, m);
      assert Bodies(rest) + [] == Bodies(rest);
      ResponseIs(style, verb, messages, start, rest);
      ResponseIs(style, verb, messages + [m], start, rest + [m]);
    }
  }

  /** A body that is acted on adds its encoding, and the terminator if it is the last. */
  lemma ResponseGrows(style: Style, verb: Bytes, messages: seq<Message>, body: Bytes, more: bool)
    requires Begun(messages).Some? && !Finished(Begun(messages).value.1)
    ensures
      var (start, rest) := Begun(messages).value;
      var f := Choose(style, verb, start.status, start.headers);
      && Begun(messages + [Body(body, more)]) == Some((start, rest + [Body(body, more)]))
      && Bodies(rest + [Body(body, more)]) == Bodies(rest) + [body]
      && (Finished(rest + [Body(body, more)]) <==> !more)
      && |Payload(Bodies(rest) + [body])| == |Payload(Bodies(rest))| + |body|
      && Response(style, verb, messages + [Body(body, more)], false)
         == Response(style, verb, messages, false) + Encoded(f, |Payload(Bodies(rest))|, body)
            + (if !more && f.Chunked? then LAST_CHUNK else "")
  {
    hide Begun, Bodies, Finished, Payload, Content, Choose, Response, Encoded;
    var (start, rest) := Begun(messages).value;
    var f := Choose(style, verb, start.status, start.headers);
    BegunSnoc(messages, Body(body, more));
    BodiesSnoc(rest, Body(body, more));
    ContentSnoc(f, Bodies(rest), body);
    PayloadSnoc(Bodies(rest), body);
    ResponseIs(style, verb, messages, start, rest);
    ResponseIs(style, verb, messages + [Body(body, more)], start, rest + [Body(body, more)]);
    ContentCloses(f, Bodies(rest) + [body], !more);
  }

  /** Content grows by exactly the encoding of the next body. */
  lemma ContentSnoc(f: Framing, bodies: seq<Bytes>, body: Bytes)
    ensures Content(f, bodies + [body], false) == Content(f, bodies, false) + Encoded(f, |Payload(bodies)|, body)
  {
    PayloadSnoc(bodies, body);
    ChunksSnoc(bodies, body);
  }

  lemma {:induction false} BegunSnoc(messages: seq<Message>, m: Message)
    ensures Begun(messages).Some? ==>
              Begun(messages + [m]) == Some((Begun(messages).value.0, Begun(messages).value.1 + [m]))
    ensures Begun(messages).None? ==> Begun(messages + [m]) == if m.Start? then Some((m, [])) else None
  {
    if messages != [] {
      assert (messages + [m])[1..] == messages[1..] + [m];
      BegunSnoc(messages[1..], m);
    } else {
      assert (messages + [m])[1..] == [];
    }
  }

  lemma {:induction false} BodiesSnoc(messages: seq<Message>, m: Message)
    ensures Bodies(messages + [m]) == Bodies(messages) + (if m.Body? && !Finished(messages) then [m.body] else [])
    ensures Finished(messages + [m]) <==> Finished(messages) || (m.Body? && !m.more)
  {
    assert forall x :: x in messages + [m] <==> x in messages || x == m;
    if messages != [] {
      assert (messages + [m])[1..] == messages[1..] + [m];
      assert forall x :: x in messages <==> x == messages[0] || x in messages[1..];
      BodiesSnoc(messages[1..], m);
    } else {
      assert (messages + [m])[1..] == [];
    }
  }
}
