/** The loops that accumulate evidence fields and feed a digest object (deployment_contract.py:426-449, 802-898). */
module DeploymentDigest {
  import opened LengthFraming
  import opened Numerals
  import opened DeploymentModels

  /** A digest object: updates only ever append to what it covers. */
  class Hasher {
    const sha: seq<Octet> -> string
    var fed: seq<Octet>

    constructor (sha: seq<Octet> -> string)
      ensures this.sha == sha && fed == []
    {
      this.sha := sha;
      fed := [];
    }

    method Update(bytes: seq<Octet>)
      modifies this
      ensures fed == old(fed) + bytes
    {
      fed := fed + bytes;
    }

    method HexDigest() returns (r: string)
      ensures r == sha(fed)
    {
      r := sha(fed);
    }
  }

  lemma EncodedSnoc(fields: seq<string>, i: nat)
    requires i < |fields|
    ensures Encoded(fields[..i + 1]) == Encoded(fields[..i]) + [Utf8(fields[i])]
    ensures Framed(fields[..i + 1]) == Framed(fields[..i]) + Frame(Utf8(fields[i]))
  {
    FramesSnoc(Encoded(fields[..i]), Utf8(fields[i]));
  }

  lemma FramableSnoc(fields: seq<string>, i: nat)
    requires i < |fields| && Framable(fields[..i]) && Fits(Utf8(fields[i]))
    ensures Framable(fields[..i + 1])
  {
    EncodedSnoc(fields, i);
  }

  lemma TooLong(fields: seq<string>, i: nat)
    requires i < |fields| && !Fits(Utf8(fields[i]))
    ensures !Framable(fields)
  {
    assert Encoded(fields)[i] == Utf8(fields[i]);
  }

  method FeedField(hasher: Hasher, encoded: seq<Octet>)
    modifies hasher
    ensures hasher.fed == old(hasher.fed) + Frame(encoded)
  {
    hasher.Update(BigEndian(|encoded|, LENGTH_WIDTH));
    hasher.Update(encoded);
  }

  /** Fails exactly when a field is too long for its length prefix. */
  method DigestFields(sha: seq<Octet> -> string, fields: seq<string>) returns (r: Result<string>)
    ensures r == if Framable(fields) then Ok(sha(Framed(fields))) else Err
  {
    var hasher := new Hasher(sha);
    var i := 0;
    while i < |fields|
      invariant 0 <= i <= |fields|
      invariant hasher.fed == Framed(fields[..i]) && Framable(fields[..i])
    {
      var encoded := Utf8(fields[i]);
      if !Fits(encoded) {
        TooLong(fields, i);
        return Err;
      }
      EncodedSnoc(fields, i);
      FramableSnoc(fields, i);
      FeedField(hasher, encoded);
      i := i + 1;
    }
    assert fields[..i] == fields;
    var digest := hasher.HexDigest();
    r := Ok(digest);
  }

  lemma {:induction false} ConcatSnoc(blocks: seq<seq<string>>, last: seq<string>)
    ensures Concat(blocks + [last]) == Concat(blocks) + last
  {
    if blocks == [] {
      assert [last][1..] == [] && [] + [last] == [last];
    } else {
      ConcatSnoc(blocks[1..], last);
      assert (blocks + [last])[1..] == blocks[1..] + [last];
    }
  }

  lemma ResourcesSnoc(rs: seq<Resource>, i: nat)
    requires i < |rs|
    ensures Concat(ResourceBlocks(rs[..i + 1])) == Concat(ResourceBlocks(rs[..i])) + ResourceFields(rs[i])
  {
    hide ResourceFields, Concat;
    ConcatSnoc(ResourceBlocks(rs[..i]), ResourceFields(rs[i]));
    assert ResourceBlocks(rs[..i + 1]) == ResourceBlocks(rs[..i]) + [ResourceFields(rs[i])];
  }

  lemma ProbesSnoc(notation: Notation, ps: seq<Probe>, i: nat)
    requires i < |ps|
    ensures Concat(ProbeBlocks(notation, ps[..i + 1]))
         == Concat(ProbeBlocks(notation, ps[..i])) + ProbeFields(notation, ps[i])
  {
    hide ProbeFields, Concat;
    ConcatSnoc(ProbeBlocks(notation, ps[..i]), ProbeFields(notation, ps[i]));
    assert ProbeBlocks(notation, ps[..i + 1]) == ProbeBlocks(notation, ps[..i]) + [ProbeFields(notation, ps[i])];
  }

  lemma ObservationsSnoc(notation: Notation, os: seq<Observation>, i: nat)
    requires i < |os|
    ensures Concat(ObservationBlocks(notation, os[..i + 1]))
         == Concat(ObservationBlocks(notation, os[..i])) + ObservationFields(notation, os[i])
  {
    hide ObservationFields, Concat;
    var all, before := ObservationBlocks(notation, os[..i + 1]), ObservationBlocks(notation, os[..i]);
    ConcatSnoc(before, ObservationFields(notation, os[i]));
    assert all == before + [ObservationFields(notation, os[i])];
  }

  lemma ChecksumsSnoc(cs: seq<Checksum>, i: nat)
    requires i < |cs|
    ensures Concat(ChecksumBlocks(cs[..i + 1])) == Concat(ChecksumBlocks(cs[..i])) + ChecksumFields(cs[i])
  {
    ConcatSnoc(ChecksumBlocks(cs[..i]), ChecksumFields(cs[i]));
    assert ChecksumBlocks(cs[..i + 1]) == ChecksumBlocks(cs[..i]) + [ChecksumFields(cs[i])];
  }

  method ResourceList(rs: seq<Resource>) returns (fields: seq<string>)
    ensures fields == Concat(ResourceBlocks(rs))
  {
    fields := [];
    for i := 0 to |rs|
      invariant fields == Concat(ResourceBlocks(rs[..i]))
    {
      ResourcesSnoc(rs, i);
      fields := fields + ResourceFields(rs[i]);
    }
    assert rs[..|rs|] == rs;
  }

  method ProbeList(notation: Notation, ps: seq<Probe>) returns (fields: seq<string>)
    ensures fields == Concat(ProbeBlocks(notation, ps))
  {
    fields := [];
    for i := 0 to |ps|
      invariant fields == Concat(ProbeBlocks(notation, ps[..i]))
    {
      ProbesSnoc(notation, ps, i);
      fields := fields + ProbeFields(notation, ps[i]);
    }
    assert ps[..|ps|] == ps;
  }

  method ObservationList(notation: Notation, o: Observation) returns (fields: seq<string>)
    ensures fields == ObservationFields(notation, o)
  {
    fields := ObservationHead(notation, o);
    var resources := ResourceList(o.resources);
    fields := fields + resources;
    var probes := ProbeList(notation, o.probes);
    fields := fields + probes;
    if o.proof.Some? {
      fields := fields + ProofFields(notation, o.proof.value);
    }
  }

  method ObservationsList(notation: Notation, os: seq<Observation>) returns (fields: seq<string>)
    ensures fields == Concat(ObservationBlocks(notation, os))
  {
    fields := [];
    for i := 0 to |os|
      invariant fields == Concat(ObservationBlocks(notation, os[..i]))
    {
      ObservationsSnoc(notation, os, i);
      var more := ObservationList(notation, os[i]);
      fields := fields + more;
    }
    assert os[..|os|] == os;
  }

  method ChecksumList(checksums: seq<Checksum>) returns (fields: seq<string>)
    ensures fields == Concat(ChecksumBlocks(checksums))
  {
    fields := [];
    for i := 0 to |checksums|
      invariant fields == Concat(ChecksumBlocks(checksums[..i]))
    {
      ChecksumsSnoc(checksums, i);
      fields := fields + ChecksumFields(checksums[i]);
    }
    assert checksums[..|checksums|] == checksums;
  }

  /** The digest that validation compares with the one an envelope states. */
  method CanonicalEvidenceSha(notation: Notation, e: Envelope) returns (r: Result<string>)
    ensures r == if Framable(EvidenceFields(notation, e)) then Ok(FieldDigest(notation, EvidenceFields(notation, e)))
                 else Err
  {
    var fields := EnvelopeHead(notation, e);
    var observations := ObservationsList(notation, e.observations);
    fields := fields + observations;
    var checksums := ChecksumList(e.local + e.gke);
    fields := fields + checksums;
    r := DigestFields(notation.sha, fields + [e.receipt.registrationId, e.receipt.sha]);
  }
}
