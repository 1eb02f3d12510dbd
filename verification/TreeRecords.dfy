/** The byte stream behind a tree digest (release_contract.py:800-953) and what can be read back from it. */
module TreeRecords {
  import opened LengthFraming

  /** A directory entry's name, as an operating system lists it. */
  type Name = s: string | s != "" && '/' !in s witness "x"

  type Path = seq<Name>

  type Mode = m: nat | m < 0x1000

  /** The kind of a special entry, as its mode bits spell it. */
  type Format = f: nat | f < 0x1_0000

  datatype Payload = Link(target: seq<Octet>) | Directory | File(data: seq<Octet>) | Special(format: Format)

  datatype Record = Record(path: Path, mode: Mode, payload: Payload)

  /** What a walk includes below one directory, in the order it was listed. */
  type Listing = seq<Child>

  datatype Child = Child(name: Name, item: Item)

  datatype Item =
    | LinkItem(mode: Mode, target: seq<Octet>)
    | Folder(mode: Mode, children: Listing)
    | Regular(mode: Mode, data: seq<Octet>)
    | Other(mode: Mode, format: Format)

  function Kind(item: Item): Payload {
    match item
    case LinkItem(_, target) => Link(target)
    case Folder(_, _) => Directory
    case Regular(_, data) => File(data)
    case Other(_, format) => Special(format)
  }

  /** Depth first, each entry before what is below it; nothing marks the end of a directory. */
  function Records(parts: Path, listing: Listing): seq<Record>
    decreases listing
  {
    if listing == [] then []
    else
      var path, item := parts + [listing[0].name], listing[0].item;
      [Record(path, item.mode, Kind(item))]
      + (if item.Folder? then Records(path, item.children) else [])
      + Records(parts, listing[1..])
  }

  // ----- paths as text -----

  function Join(path: Path): string {
    if path == [] then "" else if |path| == 1 then path[0] else path[0] + "/" + Join(path[1..])
  }

  /** The text before the first slash, and the text after it if there is a slash. */
  lemma {:induction false} NamesApart(a: string, b: string, restA: string, restB: string)
    requires '/' !in a && '/' !in b
    requires a + "/" + restA == b + "/" + restB
    ensures a == b && restA == restB
  {
    var whole := a + "/" + restA;
    assert whole[|a|] == '/' && (b + "/" + restB)[|b|] == '/';
    assert forall i :: 0 <= i < |a| ==> whole[i] == a[i] && a[i] in a;
    assert forall i :: 0 <= i < |b| ==> whole[i] == b[i] && b[i] in b;
    assert a == whole[..|a|] && b == whole[..|b|];
    assert restA == whole[|a| + 1..] && restB == whole[|b| + 1..];
  }

  lemma JoinHasSlash(path: Path)
    requires |path| > 1
    ensures '/' in Join(path)
  {
    assert Join(path)[|path[0]|] == '/';
  }

  lemma {:induction false} JoinInjective(a: Path, b: Path)
    requires a != [] && b != [] && Join(a) == Join(b)
    ensures a == b
  {
    if |a| > 1 { JoinHasSlash(a); }
    if |b| > 1 { JoinHasSlash(b); }
    if |a| == 1 || |b| == 1 {
      assert a == [a[0]] && b == [b[0]];
    } else {
      NamesApart(a[0], b[0], Join(a[1..]), Join(b[1..]));
      JoinInjective(a[1..], b[1..]);
      assert a == [a[0]] + a[1..] && b == [b[0]] + b[1..];
    }
  }

  // ----- the stream -----

  const TAG_LINK: Octet := 0x4C
  const TAG_DIRECTORY: Octet := 0x44
  const TAG_FILE: Octet := 0x46
  const TAG_SPECIAL: Octet := 0x4F
  const MODE_WIDTH := 4

  function EncodePayload(p: Payload): seq<Octet> {
    match p
    case Link(target) => [TAG_LINK] + Frame(target)
    case Directory => [TAG_DIRECTORY]
    case File(data) => [TAG_FILE] + Frame(data)
    case Special(format) => [TAG_SPECIAL] + BigEndian(format, MODE_WIDTH)
  }

  function PathBytes(path: Path): seq<Octet> { Utf8(Join(path)) }

  function Encode(r: Record): seq<Octet> {
    Frame(PathBytes(r.path)) + (BigEndian(r.mode, MODE_WIDTH) + EncodePayload(r.payload))
  }

  function Flatten(blocks: seq<seq<Octet>>): seq<Octet> {
    if blocks == [] then [] else blocks[0] + Flatten(blocks[1..])
  }

  function Map<T, U>(f: T -> U, items: seq<T>): (r: seq<U>)
    ensures |r| == |items| && forall i :: 0 <= i < |items| ==> r[i] == f(items[i])
  {
    seq(|items|, i requires 0 <= i < |items| => f(items[i]))
  }

  function Encodings(records: seq<Record>): seq<seq<Octet>> { Map(Encode, records) }

  function Stream(records: seq<Record>): seq<Octet> { Flatten(Encodings(records)) }

  predicate PayloadFits(p: Payload) { (p.Link? ==> Fits(p.target)) && (p.File? ==> Fits(p.data)) }

  /** Every length of this record fits its eight bytes. */
  predicate Encodable(r: Record) { r.path != [] && Fits(PathBytes(r.path)) && PayloadFits(r.payload) }

  predicate AllEncodable(records: seq<Record>) { forall i :: 0 <= i < |records| ==> Encodable(records[i]) }

  // ----- reading it back -----

  /** A record as read: its path is still text in bytes. */
  datatype Raw = Raw(path: seq<Octet>, mode: nat, payload: Payload)

  function AsRaw(r: Record): Raw { Raw(PathBytes(r.path), r.mode, r.payload) }

  function DecodePayload(stream: seq<Octet>): Option<(Payload, seq<Octet>)> {
    if stream == [] then None
    else if stream[0] == TAG_DIRECTORY then Some((Directory, stream[1..]))
    else if stream[0] == TAG_LINK then
      match Unframe(stream[1..]) case None => None case Some((b, rest)) => Some((Link(b), rest))
    else if stream[0] == TAG_FILE then
      match Unframe(stream[1..]) case None => None case Some((b, rest)) => Some((File(b), rest))
    else if stream[0] == TAG_SPECIAL && |stream| > MODE_WIDTH && Value(stream[1..MODE_WIDTH + 1]) < 0x1_0000 then
      Some((Special(Value(stream[1..MODE_WIDTH + 1])), stream[MODE_WIDTH + 1..]))
    else None
  }

  function DecodeRecord(stream: seq<Octet>): Option<(Raw, seq<Octet>)> {
    match Unframe(stream)
    case None => None
    case Some((path, rest)) =>
      if |rest| < MODE_WIDTH then None
      else match DecodePayload(rest[MODE_WIDTH..])
        case None => None
        case Some((payload, after)) => Some((Raw(path, Value(rest[..MODE_WIDTH]), payload), after))
  }

  lemma PowerFour()
    ensures Power(MODE_WIDTH) == 0x1_0000_0000
  {
    assert Power(0) == 1 && Power(1) == 256 && Power(2) == 0x1_0000 && Power(3) == 0x100_0000;
  }

  lemma FormatRoundTrip(format: Format, rest: seq<Octet>)
    ensures DecodePayload([TAG_SPECIAL] + BigEndian(format, MODE_WIDTH) + rest) == Some((Special(format), rest))
  {
    var stream := [TAG_SPECIAL] + BigEndian(format, MODE_WIDTH) + rest;
    PowerFour();
    BigEndianRoundTrip(format, MODE_WIDTH);
    assert stream[1..MODE_WIDTH + 1] == BigEndian(format, MODE_WIDTH);
    assert stream[MODE_WIDTH + 1..] == rest;
  }

  lemma TaggedFrame(tag: Octet, field: seq<Octet>, rest: seq<Octet>)
    requires Fits(field)
    ensures Unframe(([tag] + Frame(field) + rest)[1..]) == Some((field, rest))
  {
    UnframeFrame(field, rest);
    assert ([tag] + Frame(field) + rest)[1..] == Frame(field) + rest;
  }

  lemma PayloadRoundTrip(p: Payload, rest: seq<Octet>)
    requires PayloadFits(p)
    ensures DecodePayload(EncodePayload(p) + rest) == Some((p, rest))
  {
    match p
    case Link(target) => TaggedFrame(TAG_LINK, target, rest);
    case Directory => assert ([TAG_DIRECTORY] + rest)[1..] == rest;
    case File(data) => TaggedFrame(TAG_FILE, data, rest);
    case Special(format) => FormatRoundTrip(format, rest);
  }

  /** One record is read back whatever follows it. */
  lemma RecordRoundTrip(r: Record, rest: seq<Octet>)
    requires Encodable(r)
    ensures DecodeRecord(Encode(r) + rest) == Some((AsRaw(r), rest))
  {
    var mode, payload := BigEndian(r.mode, MODE_WIDTH), EncodePayload(r.payload);
    var after := mode + payload + rest;
    assert Encode(r) + rest == Frame(PathBytes(r.path)) + after;
    UnframeFrame(PathBytes(r.path), after);
    PowerFour();
    BigEndianRoundTrip(r.mode, MODE_WIDTH);
    assert after[..MODE_WIDTH] == mode && after[MODE_WIDTH..] == payload + rest;
    PayloadRoundTrip(r.payload, rest);
  }

  lemma SamePath(a: Record, b: Record)
    requires a.path != [] && b.path != [] && AsRaw(a) == AsRaw(b)
    ensures a == b
  {
    Utf8Injective(Join(a.path), Join(b.path));
    JoinInjective(a.path, b.path);
  }

  lemma StreamHead(a: seq<Record>)
    requires a != [] && Encodable(a[0])
    ensures DecodeRecord(Stream(a)) == Some((AsRaw(a[0]), Stream(a[1..])))
  {
    assert Encodings(a)[1..] == Encodings(a[1..]);
    RecordRoundTrip(a[0], Stream(a[1..]));
  }

  lemma EmptyStream(a: seq<Record>)
    requires AllEncodable(a) && Stream(a) == []
    ensures a == []
  {
    assert DecodeRecord([]) == None;
    if a != [] {
      StreamHead(a);
    }
  }

  lemma HeadsEqual(a: seq<Record>, b: seq<Record>)
    requires a != [] && b != [] && Encodable(a[0]) && Encodable(b[0]) && Stream(a) == Stream(b)
    ensures a[0] == b[0] && Stream(a[1..]) == Stream(b[1..])
  {
    StreamHead(a);
    StreamHead(b);
    SamePath(a[0], b[0]);
  }

  /** Equal streams come from equal lists of records. */
  lemma {:induction false} StreamInjective(a: seq<Record>, b: seq<Record>)
    requires AllEncodable(a) && AllEncodable(b) && Stream(a) == Stream(b)
    ensures a == b
  {
    if a == [] {
      EmptyStream(b);
    } else if b == [] {
      EmptyStream(a);
    } else {
      HeadsEqual(a, b);
      StreamInjective(a[1..], b[1..]);
      assert a == [a[0]] + a[1..] && b == [b[0]] + b[1..];
    }
  }

  // ----- from records to the tree -----

  predicate Below(path: Path, parts: Path) { |parts| < |path| && path[..|parts|] == parts }

  /** No record at the head of this list is below the directory at `parts`. */
  predicate LeavesOff(rest: seq<Record>, parts: Path) { rest != [] ==> !Below(rest[0].path, parts) }

  lemma BelowParent(path: Path, parts: Path, name: Name)
    requires Below(path, parts + [name])
    ensures Below(path, parts)
  {
    assert path[..|parts| + 1][..|parts|] == path[..|parts|];
  }

  lemma RestLeavesOff(parts: Path, name: Name, listing: Listing, rest: seq<Record>)
    requires LeavesOff(rest, parts)
    ensures LeavesOff(Records(parts, listing) + rest, parts + [name])
  {
    var whole := Records(parts, listing) + rest;
    if listing != [] {
      assert whole[0].path == parts + [listing[0].name];
    } else {
      assert whole == rest;
      if rest != [] && Below(rest[0].path, parts + [name]) {
        BelowParent(rest[0].path, parts, name);
        assert false;
      }
    }
  }

  lemma FirstIsBelow(parts: Path, listing: Listing, rest: seq<Record>)
    requires listing != []
    ensures !LeavesOff(Records(parts, listing) + rest, parts)
  {
    assert (Records(parts, listing) + rest)[0].path == parts + [listing[0].name];
  }

  lemma FirstRecord(parts: Path, listing: Listing, rest: seq<Record>)
    requires listing != []
    ensures var path, item := parts + [listing[0].name], listing[0].item;
            Records(parts, listing) + rest ==
              [Record(path, item.mode, Kind(item))]
              + ((if item.Folder? then Records(path, item.children) else []) + (Records(parts, listing[1..]) + rest))
  {}

  /** Full paths make up for the missing end markers: followed by anything that leaves the directory, the records
      of a listing determine it. */
  lemma {:induction false} ListingDetermined(parts: Path, a: Listing, b: Listing, restA: seq<Record>,
                                             restB: seq<Record>)
    requires LeavesOff(restA, parts) && LeavesOff(restB, parts)
    requires Records(parts, a) + restA == Records(parts, b) + restB
    ensures a == b && restA == restB
    decreases a
  {
    var whole := Records(parts, a) + restA;
    if a == [] || b == [] {
      if a != [] { FirstIsBelow(parts, a, restA); }
      if b != [] { FirstIsBelow(parts, b, restB); }
      assert whole == restA == restB;
    } else {
      FirstRecord(parts, a, restA);
      FirstRecord(parts, b, restB);
      var path, itemA, itemB := parts + [a[0].name], a[0].item, b[0].item;
      assert whole[0] == Record(path, itemA.mode, Kind(itemA)) == Record(parts + [b[0].name], itemB.mode, Kind(itemB));
      assert path[|parts|] == a[0].name && (parts + [b[0].name])[|parts|] == b[0].name;
      var laterA, laterB := Records(parts, a[1..]) + restA, Records(parts, b[1..]) + restB;
      if itemA.Folder? {
        assert whole[1..] == Records(path, itemA.children) + laterA == Records(path, itemB.children) + laterB;
        RestLeavesOff(parts, a[0].name, a[1..], restA);
        RestLeavesOff(parts, a[0].name, b[1..], restB);
        ListingDetermined(path, itemA.children, itemB.children, laterA, laterB);
      } else {
        assert whole[1..] == laterA == laterB;
      }
      ListingDetermined(parts, a[1..], b[1..], restA, restB);
      assert a == [a[0]] + a[1..] && b == [b[0]] + b[1..];
    }
  }

  /** The stream of a tree determines the tree. */
  lemma StreamDeterminesTheTree(a: Listing, b: Listing)
    requires AllEncodable(Records([], a)) && AllEncodable(Records([], b))
    ensures Stream(Records([], a)) == Stream(Records([], b)) <==> a == b
  {
    if Stream(Records([], a)) == Stream(Records([], b)) {
      StreamInjective(Records([], a), Records([], b));
      assert Records([], a) + [] == Records([], b) + [];
      ListingDetermined([], a, b, [], []);
    }
  }
}
