/** The loop that loads the logs of one generation (ci_contract.py:1427-1451). */
module CiLogs {
  import opened CiPublication

  lemma {:induction false} SizeUpTo(records: seq<Record>, logs: map<string, Bytes>, i: nat)
    requires i < |records| && records[i].job in logs
    ensures TotalSize(records[..i + 1], logs) == TotalSize(records[..i], logs) + |logs[records[i].job]|
    decreases i
  {
    if i == 0 {
      assert records[..1][1..] == [];
    } else {
      assert records[..i + 1][1..] == records[1..][..i] && records[..i][1..] == records[1..][..i - 1];
      SizeUpTo(records[1..], logs, i - 1);
    }
  }

  lemma {:induction false} SizeGrows(records: seq<Record>, logs: map<string, Bytes>, i: nat)
    requires i <= |records|
    ensures TotalSize(records[..i], logs) <= TotalSize(records, logs)
    decreases i
  {
    if i > 0 {
      assert records[..i][1..] == records[1..][..i - 1];
      SizeGrows(records[1..], logs, i - 1);
    }
  }

  predicate RecordMatches(rules: Rules, r: Record, files: map<string, Bytes>) {
    r.job in files && rules.sha(files[r.job]) == r.outputSha && |files[r.job]| <= MAX_EVIDENCE_FILE_BYTES
  }

  predicate AllMatch(rules: Rules, records: seq<Record>, files: map<string, Bytes>) {
    forall k :: 0 <= k < |records| ==> RecordMatches(rules, records[k], files)
  }

  lemma MatchIff(rules: Rules, records: seq<Record>, files: map<string, Bytes>)
    requires files.Keys == Jobs(records)
    ensures LogsMatch(rules, records, files)
            <==> AllMatch(rules, records, files) && TotalSize(records, files) <= MAX_EVIDENCE_AGGREGATE_BYTES
  {
    hide TotalSize;
    assert forall r :: r in records <==> exists k :: 0 <= k < |records| && records[k] == r;
  }

  lemma JobsSnoc(records: seq<Record>, i: nat)
    requires i < |records|
    ensures Jobs(records[..i + 1]) == Jobs(records[..i]) + {records[i].job} && records[i].job in Jobs(records)
  {
    assert records[..i + 1] == records[..i] + [records[i]];
  }

  /** Every log passes what is asked of it beyond its digest. */
  predicate AllAccepted(records: seq<Record>, files: map<string, Bytes>, accepts: (Record, Bytes) -> bool) {
    forall i :: 0 <= i < |records| && records[i].job in files ==> accepts(records[i], files[records[i].job])
  }

  /** Reads the log of each record in turn, adding up their sizes: it succeeds exactly when the files are the exact log
      set of the records, each within its limit and matching its digest, all together within theirs, and each accepted:
      free of secrets, and with the count of its record derived from it again. */
  method LoadVerifiedLogs(rules: Rules, records: seq<Record>, files: map<string, Bytes>,
                          accepts: (Record, Bytes) -> bool)
    returns (logs: Option<map<string, Bytes>>)
    ensures logs.Some? <==> LogsMatch(rules, records, files) && AllAccepted(records, files, accepts)
    ensures logs.Some? ==> logs.value == files
  {
    if files.Keys != Jobs(records) {
      return None;
    }
    hide LogsMatch, TotalSize, Jobs, PartOf, AllMatch, AllAccepted;
    var loaded: map<string, Bytes> := map[];
    var aggregate := 0;
    var i := 0;
    NothingYet(files);
    assert records[..0] == [];
    NoneYet(rules, files, accepts);
    while i < |records|
      invariant 0 <= i <= |records|
      invariant aggregate == TotalSize(records[..i], files)
      invariant aggregate <= MAX_EVIDENCE_AGGREGATE_BYTES
      invariant AllMatch(rules, records[..i], files)
      invariant AllAccepted(records[..i], files, accepts)
      invariant loaded.Keys == Jobs(records[..i]) && PartOf(loaded, files)
    {
      JobsSnoc(records, i);
      var output := files[records[i].job];
      SizeUpTo(records, files, i);
      aggregate := aggregate + |output|;
      if |output| > MAX_EVIDENCE_FILE_BYTES || aggregate > MAX_EVIDENCE_AGGREGATE_BYTES
         || rules.sha(output) != records[i].outputSha {
        Mismatch(rules, records, files, i);
        return None;
      }
      AcceptedSnoc(records, files, accepts, i);
      if !accepts(records[i], output) {
        return None;
      }
      MatchSnoc(rules, records, files, i);
      PartGrows(loaded, files, records[i].job);
      loaded := loaded[records[i].job := output];
      i := i + 1;
    }
    assert records[..i] == records;
    MatchIff(rules, records, files);
    MapsEqual(loaded, files);
    return Some(loaded);
  }

  lemma NoneYet(rules: Rules, files: map<string, Bytes>, accepts: (Record, Bytes) -> bool)
    ensures AllMatch(rules, [], files) && AllAccepted([], files, accepts)
  {}

  lemma AcceptedSnoc(records: seq<Record>, files: map<string, Bytes>, accepts: (Record, Bytes) -> bool, i: nat)
    requires i < |records| && records[i].job in files
    ensures AllAccepted(records[..i + 1], files, accepts)
            <==> AllAccepted(records[..i], files, accepts) && accepts(records[i], files[records[i].job])
    ensures AllAccepted(records, files, accepts) ==> accepts(records[i], files[records[i].job])
  {
    assert forall k :: 0 <= k < i ==> records[..i + 1][k] == records[k] && records[..i][k] == records[k];
    assert records[..i + 1][i] == records[i];
  }

  lemma MatchSnoc(rules: Rules, records: seq<Record>, files: map<string, Bytes>, i: nat)
    requires i < |records| && records[i].job in files && AllMatch(rules, records[..i], files)
    requires rules.sha(files[records[i].job]) == records[i].outputSha
    requires |files[records[i].job]| <= MAX_EVIDENCE_FILE_BYTES
    ensures AllMatch(rules, records[..i + 1], files)
  {
    assert forall k :: 0 <= k < i ==> records[..i + 1][k] == records[..i][k];
  }

  lemma Mismatch(rules: Rules, records: seq<Record>, files: map<string, Bytes>, i: nat)
    requires i < |records| && files.Keys == Jobs(records) && records[i].job in files
    requires var output := files[records[i].job];
             || |output| > MAX_EVIDENCE_FILE_BYTES || rules.sha(output) != records[i].outputSha
             || TotalSize(records[..i + 1], files) > MAX_EVIDENCE_AGGREGATE_BYTES
    ensures !LogsMatch(rules, records, files)
  {
    MatchIff(rules, records, files);
    SizeGrows(records, files, i + 1);
  }

  predicate PartOf(part: map<string, Bytes>, whole: map<string, Bytes>) {
    forall j :: j in part ==> j in whole && part[j] == whole[j]
  }

  lemma MapsEqual(part: map<string, Bytes>, whole: map<string, Bytes>)
    requires PartOf(part, whole) && part.Keys == whole.Keys
    ensures part == whole
  {}

  lemma PartGrows(part: map<string, Bytes>, whole: map<string, Bytes>, j: string)
    requires PartOf(part, whole) && j in whole
    ensures PartOf(part[j := whole[j]], whole) && part[j := whole[j]].Keys == part.Keys + {j}
  {}

  lemma NothingYet(files: map<string, Bytes>)
    ensures TotalSize([], files) == 0 && Jobs([]) == {} && PartOf(map[], files)
  {}
}
