/** Byte strings behind digests: UTF-8 text and fields prefixed by an eight-byte big-endian length. */
module LengthFraming {

  datatype Option<+T> = None | Some(value: T)

  type Octet = b: nat | b < 256

  const LENGTH_WIDTH: nat := 8

  // ----- big-endian integers -----

  function Power(width: nat): (p: nat)
    ensures p > 0
  {
    if width == 0 then 1 else 256 * Power(width - 1)
  }

  function BigEndian(n: nat, width: nat): (r: seq<Octet>)
    ensures |r| == width
  {
    if width == 0 then [] else BigEndian(n / 256, width - 1) + [n % 256]
  }

  function Value(bytes: seq<Octet>): nat {
    if bytes == [] then 0 else 256 * Value(bytes[..|bytes| - 1]) + bytes[|bytes| - 1]
  }

  lemma {:induction false} BigEndianRoundTrip(n: nat, width: nat)
    requires n < Power(width)
    ensures Value(BigEndian(n, width)) == n
  {
    if width > 0 {
      BigEndianRoundTrip(n / 256, width - 1);
      assert BigEndian(n, width)[..width - 1] == BigEndian(n / 256, width - 1);
    }
  }

  // ----- one field, and a list of them -----

  /** The length of a field must fit its eight bytes. */
  predicate Fits(field: seq<Octet>) { |field| < Power(LENGTH_WIDTH) }

  /** Eight bytes hold every length below two to the 64th. */
  lemma FitsIff(field: seq<Octet>)
    ensures Fits(field) <==> |field| < 0x1_0000_0000_0000_0000
  {
    assert Power(2) == 0x1_0000;
    assert Power(4) == 0x1_0000_0000;
    assert Power(6) == 0x1_0000_0000_0000;
    assert Power(8) == 256 * Power(7) == 0x1_0000_0000_0000_0000;
  }

  predicate AllFit(fields: seq<seq<Octet>>) { forall f :: f in fields ==> Fits(f) }

  function Frame(field: seq<Octet>): seq<Octet> { BigEndian(|field|, LENGTH_WIDTH) + field }

  function Frames(fields: seq<seq<Octet>>): seq<Octet> {
    if fields == [] then [] else Frame(fields[0]) + Frames(fields[1..])
  }

  /** Reads one field and what follows it. */
  function Unframe(stream: seq<Octet>): Option<(seq<Octet>, seq<Octet>)> {
    if |stream| < LENGTH_WIDTH then None
    else
      var end := LENGTH_WIDTH + Value(stream[..LENGTH_WIDTH]);
      if |stream| < end then None else Some((stream[LENGTH_WIDTH..end], stream[end..]))
  }

  function Unframes(stream: seq<Octet>): Option<seq<seq<Octet>>>
    decreases |stream|
  {
    if stream == [] then Some([])
    else match Unframe(stream)
      case None => None
      case Some((field, rest)) =>
        match Unframes(rest) case None => None case Some(others) => Some([field] + others)
  }

  /** One framed field is read back whatever follows it, so no framing is a prefix of another. */
  lemma UnframeFrame(field: seq<Octet>, rest: seq<Octet>)
    requires Fits(field)
    ensures Unframe(Frame(field) + rest) == Some((field, rest))
  {
    BigEndianRoundTrip(|field|, LENGTH_WIDTH);
    var stream := Frame(field) + rest;
    assert stream[..LENGTH_WIDTH] == BigEndian(|field|, LENGTH_WIDTH);
    assert stream[LENGTH_WIDTH..LENGTH_WIDTH + |field|] == field;
    assert stream[LENGTH_WIDTH + |field|..] == rest;
  }

  lemma {:induction false} UnframesFrames(fields: seq<seq<Octet>>)
    requires AllFit(fields)
    ensures Unframes(Frames(fields)) == Some(fields)
  {
    if fields != [] {
      UnframeFrame(fields[0], Frames(fields[1..]));
      UnframesFrames(fields[1..]);
      assert fields == [fields[0]] + fields[1..];
    }
  }

  lemma FramesInjective(a: seq<seq<Octet>>, b: seq<seq<Octet>>)
    requires AllFit(a) && AllFit(b) && Frames(a) == Frames(b)
    ensures a == b
  {
    UnframesFrames(a);
    UnframesFrames(b);
  }

  lemma {:induction false} FramesSnoc(fields: seq<seq<Octet>>, last: seq<Octet>)
    ensures Frames(fields + [last]) == Frames(fields) + Frame(last)
  {
    if fields == [] {
      assert [] + [last] == [last];
      assert Frames([last]) == Frame(last) + Frames([last][1..]) == Frame(last);
    } else {
      FramesSnoc(fields[1..], last);
      assert (fields + [last])[1..] == fields[1..] + [last];
    }
  }

  // ----- text -----

  function EncodeChar(c: char): seq<Octet> {
    var u := c as int;
    if u < 0x80 then [u]
    else if u < 0x800 then [0xC0 + u / 0x40, 0x80 + u % 0x40]
    else if u < 0x1_0000 then [0xE0 + u / 0x1000, 0x80 + u / 0x40 % 0x40, 0x80 + u % 0x40]
    else [0xF0 + u / 0x4_0000, 0x80 + u / 0x1000 % 0x40, 0x80 + u / 0x40 % 0x40, 0x80 + u % 0x40]
  }

  /** How many bytes the code that starts with `lead` takes. */
  function Extent(lead: Octet): nat {
    if lead < 0xC0 then 1 else if lead < 0xE0 then 2 else if lead < 0xF0 then 3 else 4
  }

  /** The code point a complete code stands for. */
  function CodePoint(code: seq<Octet>): int
    requires code != [] && |code| == Extent(code[0])
  {
    var at := (i: nat) requires i < |code| => code[i] as int;
    match |code|
    case 1 => at(0)
    case 2 => (at(0) - 0xC0) * 0x40 + at(1) - 0x80
    case 3 => (at(0) - 0xE0) * 0x1000 + (at(1) - 0x80) * 0x40 + at(2) - 0x80
    case _ => (at(0) - 0xF0) * 0x4_0000 + (at(1) - 0x80) * 0x1000 + (at(2) - 0x80) * 0x40 + at(3) - 0x80
  }

  function Utf8(text: string): seq<Octet> {
    if text == "" then [] else EncodeChar(text[0]) + Utf8(text[1..])
  }

  /** The leading byte tells the length of a code, and its bytes tell the character. */
  lemma CharRoundTrip(c: char)
    ensures EncodeChar(c) != [] && |EncodeChar(c)| == Extent(EncodeChar(c)[0]) && CodePoint(EncodeChar(c)) == c as int
  {
    var u := c as int;
    assert u / 0x1000 == u / 0x40 / 0x40 && u / 0x4_0000 == u / 0x40 / 0x40 / 0x40;
  }

  /** One byte of a code that is not its first. */
  predicate IsContinuation(b: Octet) { 0x80 <= b < 0xC0 }

  /** A character's code is the shortest there is for it: one, two or three bytes up to the last code point they can hold,
      four above; only its first byte is not a continuation (section 3 of RFC 3629). */
  lemma CodeIsShortest(c: char)
    ensures
      var code, u := EncodeChar(c), c as int;
      && |code| == (if u <= 0x7F then 1 else if u <= 0x7FF then 2 else if u <= 0xFFFF then 3 else 4)
      && forall i :: 0 <= i < |code| ==> (IsContinuation(code[i]) <==> i > 0)
  {}

  /** Text of seven-bit characters is its own code. */
  lemma {:induction false} PlainTextIsItsCode(text: string)
    requires forall i :: 0 <= i < |text| ==> text[i] as int <= 0x7F
    ensures |Utf8(text)| == |text| && forall i :: 0 <= i < |text| ==> Utf8(text)[i] == text[i] as int
  {
    if text != "" {
      PlainTextIsItsCode(text[1..]);
      assert Utf8(text) == [text[0] as int] + Utf8(text[1..]);
    }
  }

  lemma CharsApart(a: char, b: char, restA: seq<Octet>, restB: seq<Octet>)
    requires EncodeChar(a) + restA == EncodeChar(b) + restB
    ensures a == b && restA == restB
  {
    CharRoundTrip(a);
    CharRoundTrip(b);
    var whole := EncodeChar(a) + restA;
    assert whole[0] == EncodeChar(a)[0] == EncodeChar(b)[0];
    var n := Extent(whole[0]);
    assert whole[..n] == EncodeChar(a) == EncodeChar(b);
    assert whole[n..] == restA == restB;
    assert a as int == b as int;
  }

  lemma {:induction false} Utf8Injective(a: string, b: string)
    requires Utf8(a) == Utf8(b)
    ensures a == b
  {
    if a != "" { CharRoundTrip(a[0]); }
    if b != "" { CharRoundTrip(b[0]); }
    if a != "" && b != "" {
      CharsApart(a[0], b[0], Utf8(a[1..]), Utf8(b[1..]));
      Utf8Injective(a[1..], b[1..]);
      assert a == [a[0]] + a[1..] && b == [b[0]] + b[1..];
    }
  }

  function Encoded(fields: seq<string>): seq<seq<Octet>> {
    seq(|fields|, i requires 0 <= i < |fields| => Utf8(fields[i]))
  }

  /** The length-framed bytes of a list of texts. */
  function Framed(fields: seq<string>): seq<Octet> { Frames(Encoded(fields)) }

  predicate Framable(fields: seq<string>) { AllFit(Encoded(fields)) }

  /** Equal framed bytes come from equal lists of texts. */
  lemma FramedInjective(a: seq<string>, b: seq<string>)
    requires Framable(a) && Framable(b) && Framed(a) == Framed(b)
    ensures a == b
  {
    FramesInjective(Encoded(a), Encoded(b));
    forall i | 0 <= i < |a|
      ensures a[i] == b[i]
    {
      assert Encoded(a)[i] == Encoded(b)[i];
      Utf8Injective(a[i], b[i]);
    }
  }
}
