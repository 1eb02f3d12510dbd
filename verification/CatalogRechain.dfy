/** Re-chaining the checked-in control catalog (ci_rechain.py:131-313; ci_contract.py:483-573). */
module CatalogRechain {

  datatype Option<+T> = None | Some(value: T)

  datatype Result<+T> = Ok(value: T) | Refused

  type Sha = string

  // ----- records -----

  datatype Metadata = Metadata(
    controls: seq<string>, category: string, profile: string, prerequisites: seq<string>, blockers: seq<string>)

  datatype Inventory = Inventory(root: Sha, count: nat)

  /** A job as the edited sources define it. */
  datatype Command = Command(job: string, argv: seq<string>, kind: string, inventory: Option<Inventory>)

  datatype Job = Job(
    name: string, argv: seq<string>, kind: string, inventory: Option<Inventory>, metadata: Metadata,
    requirements: seq<string>)

  datatype Catalog = Catalog(
    identity: string, requirementsSha: Sha, sourceRoot: Sha, catalogRoot: Sha, securityId: string, jobs: seq<Job>,
    unverified: seq<string>)

  /** One decoded entry of the checked-in job list: its name, and its fields if they have the right types. */
  datatype RawJob = RawJob(name: Option<string>, fields: Option<Job>)

  datatype RawCatalog = RawCatalog(
    version: int, identity: Option<string>, securityId: Option<string>, jobs: Option<seq<RawJob>>)

  /** A checked-in file: its catalog, and two values that are kept as they are. */
  datatype Document = Document(catalog: RawCatalog, evidence: Option<string>, generated: Option<string>)

  /** What a root digest covers. Jobs are sorted by name before they are written, so only which jobs there are
      counts. */
  datatype Content = Content(
    jobs: multiset<Job>, securityId: string, identity: string, requirementsSha: Sha, unverified: seq<string>,
    sourceRoot: Option<Sha>)

  datatype Sources = Sources(
    commands: seq<Command>, vocabulary: set<string>, requirementsSha: Option<Sha>, trusted: seq<string>,
    digest: Content -> Sha)

  datatype Rechained = Rechained(catalog: Catalog, document: Document, added: set<string>, removed: multiset<string>)

  // ----- roots and validity -----

  function ContentOf(c: Catalog, withSource: bool): Content {
    Content(multiset(c.jobs), c.securityId, c.identity, c.requirementsSha, c.unverified,
            if withSource then Some(c.sourceRoot) else None)
  }

  predicate RootsCheck(s: Sources, c: Catalog) {
    c.sourceRoot == s.digest(ContentOf(c, false)) && c.catalogRoot == s.digest(ContentOf(c, true))
  }

  predicate NoDuplicates(xs: seq<string>) { forall i, j :: 0 <= i < j < |xs| ==> xs[i] != xs[j] }

  predicate ValidJob(j: Job) {
    && j.argv != [] && j.metadata.category != "" && j.metadata.profile != "" && j.metadata.controls != []
    && NoDuplicates(j.metadata.controls) && NoDuplicates(j.requirements)
    && "" !in j.metadata.controls && "" !in j.requirements
    && (j.inventory.Some? ==> j.inventory.value.count > 0)
  }

  function Names(jobs: seq<Job>): set<string> { set j | j in jobs :: j.name }

  predicate DistinctJobs(jobs: seq<Job>) { forall i, j :: 0 <= i < j < |jobs| ==> jobs[i].name != jobs[j].name }

  predicate ControlsApart(jobs: seq<Job>) {
    forall i, j :: 0 <= i < j < |jobs| ==>
      forall c :: c in jobs[i].metadata.controls ==> c !in jobs[j].metadata.controls
  }

  /** Everything a catalog must be but its roots. */
  predicate WellShaped(s: Sources, c: Catalog) {
    && c.identity != "" && c.securityId != ""
    && (forall j :: j in c.jobs ==> ValidJob(j))
    && DistinctJobs(c.jobs) && Names(c.jobs) == s.vocabulary && ControlsApart(c.jobs)
    && (forall j :: j in c.jobs ==> j.requirements == [])
    && NoDuplicates(c.unverified) && c.unverified == s.trusted
  }

  predicate ValidCatalog(s: Sources, c: Catalog) { WellShaped(s, c) && RootsCheck(s, c) }

  // ----- the prior catalog -----

  datatype Prior = Prior(metadata: map<string, Metadata>, removed: multiset<string>)

  /** Jobs still in the vocabulary keep their metadata; the others are only reported. */
  function PriorJobs(s: Sources, raw: seq<RawJob>): Result<Prior> {
    if raw == [] then Ok(Prior(map[], multiset{}))
    else
      var last := raw[|raw| - 1];
      match PriorJobs(s, raw[..|raw| - 1])
      case Refused => Refused
      case Ok(p) =>
        if last.name.None? then Refused
        else if last.name.value !in s.vocabulary then Ok(p.(removed := p.removed + multiset{last.name.value}))
        else if last.name.value in p.metadata || last.fields.None? || !ValidJob(last.fields.value) then Refused
        else Ok(p.(metadata := p.metadata[last.name.value := last.fields.value.metadata]))
  }

  function LoadPrior(s: Sources, d: Document): Result<Prior> {
    var c := d.catalog;
    if c.version != 1 || c.identity.None? || c.identity.value == "" || c.securityId.None? || c.securityId.value == ""
       || c.jobs.None? then Refused
    else PriorJobs(s, c.jobs.value)
  }

  // ----- the fresh jobs -----

  function Project(c: Command, m: Metadata): Job { Job(c.job, c.argv, c.kind, c.inventory, m, []) }

  predicate CommandsMatch(s: Sources) {
    && (forall i, j :: 0 <= i < j < |s.commands| ==> s.commands[i].job != s.commands[j].job)
    && (set c | c in s.commands :: c.job) == s.vocabulary
  }

  /** Surviving metadata first, supplied metadata for a job that has none. */
  predicate Described(prior: map<string, Metadata>, supplied: map<string, Metadata>, job: string) {
    job in prior || job in supplied
  }

  function Chosen(prior: map<string, Metadata>, supplied: map<string, Metadata>, job: string): Metadata
    requires Described(prior, supplied, job)
  {
    if job in prior then prior[job] else supplied[job]
  }

  predicate AllDescribed(cs: seq<Command>, prior: map<string, Metadata>, supplied: map<string, Metadata>) {
    forall i :: 0 <= i < |cs| ==> Described(prior, supplied, cs[i].job)
  }

  function FreshJobs(cs: seq<Command>, prior: map<string, Metadata>, supplied: map<string, Metadata>): (r: seq<Job>)
    requires AllDescribed(cs, prior, supplied)
    ensures |r| == |cs| && forall i :: 0 <= i < |cs| ==> r[i] == Project(cs[i], Chosen(prior, supplied, cs[i].job))
  {
    seq(|cs|, i requires 0 <= i < |cs| => Project(cs[i], Chosen(prior, supplied, cs[i].job)))
  }

  function Lacking(s: Sources, prior: map<string, Metadata>): set<string> { s.vocabulary - prior.Keys }

  // ----- building -----

  function Complete(s: Sources, d: Document, jobs: seq<Job>, requirementsSha: Sha): Catalog
    requires d.catalog.identity.Some? && d.catalog.securityId.Some?
  {
    var zero := Catalog(d.catalog.identity.value, requirementsSha, "", "", d.catalog.securityId.value, jobs, s.trusted);
    var withSource := zero.(sourceRoot := s.digest(ContentOf(zero, false)));
    withSource.(catalogRoot := s.digest(ContentOf(withSource, true)))
  }

  /** What the written bytes decode to: the catalog's own fields, and the kept values. */
  function Written(c: Catalog, d: Document): Document {
    Document(RawCatalog(1, Some(c.identity), Some(c.securityId), Some(RawJobs(c.jobs))), d.evidence, d.generated)
  }

  function RawJobs(jobs: seq<Job>): (r: seq<RawJob>)
    ensures |r| == |jobs| && forall i :: 0 <= i < |jobs| ==> r[i] == RawJob(Some(jobs[i].name), Some(jobs[i]))
  {
    seq(|jobs|, i requires 0 <= i < |jobs| => RawJob(Some(jobs[i].name), Some(jobs[i])))
  }

  function Rechain(s: Sources, d: Document, supplied: map<string, Metadata>): Result<Rechained> {
    match LoadPrior(s, d)
    case Refused => Refused
    case Ok(prior) =>
      if !CommandsMatch(s) || !AllDescribed(s.commands, prior.metadata, supplied) then Refused
      else if supplied.Keys - Lacking(s, prior.metadata) != {} || s.requirementsSha.None? then Refused
      else
        var c := Complete(s, d, FreshJobs(s.commands, prior.metadata, supplied), s.requirementsSha.value);
        if !ValidCatalog(s, c) then Refused
        else Ok(Rechained(c, Written(c, d), Lacking(s, prior.metadata), prior.removed))
  }

  // ----- the loops -----

  method ReadPriorJobs(s: Sources, raw: seq<RawJob>) returns (r: Result<Prior>)
    ensures r == PriorJobs(s, raw)
  {
    var metadata: map<string, Metadata> := map[];
    var removed: multiset<string> := multiset{};
    var i := 0;
    while i < |raw|
      invariant 0 <= i <= |raw|
      invariant PriorJobs(s, raw[..i]) == Ok(Prior(metadata, removed))
    {
      assert raw[..i + 1][..i] == raw[..i];
      var entry := raw[i];
      if entry.name.None? {
        PriorRefused(s, raw, i + 1);
        return Refused;
      }
      var name := entry.name.value;
      if name !in s.vocabulary {
        removed := removed + multiset{name};
      } else if name in metadata || entry.fields.None? || !ValidJob(entry.fields.value) {
        PriorRefused(s, raw, i + 1);
        return Refused;
      } else {
        metadata := metadata[name := entry.fields.value.metadata];
      }
      i := i + 1;
    }
    assert raw[..i] == raw;
    return Ok(Prior(metadata, removed));
  }

  lemma {:induction false} PriorRefused(s: Sources, raw: seq<RawJob>, n: nat)
    requires n <= |raw| && PriorJobs(s, raw[..n]).Refused?
    ensures PriorJobs(s, raw).Refused?
    decreases |raw|
  {
    if n == |raw| {
      assert raw[..n] == raw;
    } else {
      assert raw[..|raw| - 1][..n] == raw[..n];
      PriorRefused(s, raw[..|raw| - 1], n);
    }
  }

  function JobsUpTo(cs: seq<Command>, n: nat): set<string>
    requires n <= |cs|
  {
    set i | 0 <= i < n :: cs[i].job
  }

  /** Each command takes its metadata out of what is left: out of the surviving jobs, else out of the supplied ones.
      Whatever was asked for and is missing, or supplied and is left over, refuses. */
  method BuildCatalogJobs(s: Sources, prior: map<string, Metadata>, supplied: map<string, Metadata>)
    returns (r: Result<(seq<Job>, set<string>)>)
    requires CommandsMatch(s)
    ensures r.Ok? <==> AllDescribed(s.commands, prior, supplied) && supplied.Keys - Lacking(s, prior) == {}
    ensures r.Ok? ==> r.value.0 == FreshJobs(s.commands, prior, supplied) && r.value.1 == Lacking(s, prior)
  {
    var cs := s.commands;
    var metadata, remaining := prior, supplied;
    var jobs: seq<Job> := [];
    var added: set<string> := {};
    var missing := false;
    var i := 0;
    while i < |cs|
      invariant 0 <= i <= |cs|
      invariant metadata == prior - JobsUpTo(cs, i)
      invariant remaining == supplied - (JobsUpTo(cs, i) - prior.Keys)
      invariant added == (JobsUpTo(cs, i) - prior.Keys) * supplied.Keys
      invariant missing <==> !AllDescribed(cs[..i], prior, supplied)
      invariant !missing ==> jobs == FreshJobs(cs[..i], prior, supplied)
    {
      var job := cs[i].job;
      assert job !in JobsUpTo(cs, i);
      assert JobsUpTo(cs, i + 1) == JobsUpTo(cs, i) + {job};
      assert cs[..i + 1] == cs[..i] + [cs[i]];
      if job in metadata {
        jobs := jobs + [Project(cs[i], metadata[job])];
        metadata := metadata - {job};
      } else if job in remaining {
        jobs := jobs + [Project(cs[i], remaining[job])];
        remaining := remaining - {job};
        added := added + {job};
      } else {
        missing := true;
        assert cs[..i + 1][i].job == job;
      }
      i := i + 1;
    }
    assert cs[..i] == cs;
    assert JobsUpTo(cs, |cs|) == s.vocabulary by {
      assert forall c :: c in cs <==> exists k :: 0 <= k < |cs| && cs[k] == c;
    }
    if missing || remaining != map[] {
      assert remaining.Keys == supplied.Keys - Lacking(s, prior);
      return Refused;
    }
    assert remaining.Keys == supplied.Keys - Lacking(s, prior);
    return Ok((jobs, added));
  }

  // ----- the theorems -----

  /** Both roots of a built catalog check whatever is in it, so they never refuse one. */
  lemma RootsOfComplete(s: Sources, d: Document, jobs: seq<Job>, requirementsSha: Sha)
    requires d.catalog.identity.Some? && d.catalog.securityId.Some?
    ensures RootsCheck(s, Complete(s, d, jobs, requirementsSha))
    ensures ValidCatalog(s, Complete(s, d, jobs, requirementsSha))
            <==> WellShaped(s, Complete(s, d, jobs, requirementsSha))
  {
    var c := Complete(s, d, jobs, requirementsSha);
    var zero := Catalog(d.catalog.identity.value, requirementsSha, "", "", d.catalog.securityId.value, jobs, s.trusted);
    assert ContentOf(c, false) == ContentOf(zero, false);
    assert ContentOf(c, true) == ContentOf(zero.(sourceRoot := c.sourceRoot), true);
  }

  /** A success consumes exactly the supplied metadata of the jobs that lacked it, reports those as added, and leaves a
      catalog whose two self-referential roots check. */
  lemma SuppliedIsConsumed(s: Sources, d: Document, supplied: map<string, Metadata>)
    requires Rechain(s, d, supplied).Ok?
    ensures var r := Rechain(s, d, supplied).value;
            && r.added == supplied.Keys
            && r.added == s.vocabulary - LoadPrior(s, d).value.metadata.Keys
            && Names(r.catalog.jobs) == s.vocabulary && RootsCheck(s, r.catalog)
  {
    hide ValidJob, RootsCheck, ControlsApart, NoDuplicates;
    var prior := LoadPrior(s, d).value.metadata;
    RootsOfComplete(s, d, FreshJobs(s.commands, prior, supplied), s.requirementsSha.value);
    forall j | j in Lacking(s, prior)
      ensures j in supplied
    {
      var c :| c in s.commands && c.job == j;
      var i :| 0 <= i < |s.commands| && s.commands[i] == c;
      assert Described(prior, supplied, s.commands[i].job);
    }
    forall j | j in supplied
      ensures j in Lacking(s, prior)
    {
      assert j !in supplied.Keys - Lacking(s, prior);
    }
    assert Lacking(s, prior) == supplied.Keys;
  }

  lemma PriorSnoc(s: Sources, raw: seq<RawJob>, p: Prior, j: Job)
    requires PriorJobs(s, raw) == Ok(p) && ValidJob(j) && j.name in s.vocabulary && j.name !in p.metadata
    ensures PriorJobs(s, raw + [RawJob(Some(j.name), Some(j))]) == Ok(p.(metadata := p.metadata[j.name := j.metadata]))
  {
    assert (raw + [RawJob(Some(j.name), Some(j))])[..|raw|] == raw;
  }

  lemma JobsSnoc(jobs: seq<Job>)
    requires jobs != []
    ensures var front, last := jobs[..|jobs| - 1], jobs[|jobs| - 1];
            && RawJobs(jobs) == RawJobs(front) + [RawJob(Some(last.name), Some(last))]
            && Names(jobs) == Names(front) + {last.name}
            && (DistinctJobs(jobs) ==> DistinctJobs(front) && last.name !in Names(front))
  {
    assert jobs == jobs[..|jobs| - 1] + [jobs[|jobs| - 1]];
  }

  /** Reading back the jobs just written gives each its own metadata and reports nothing removed. */
  lemma {:induction false} PriorOfWritten(s: Sources, jobs: seq<Job>)
    requires DistinctJobs(jobs) && forall j :: j in jobs ==> ValidJob(j) && j.name in s.vocabulary
    ensures PriorJobs(s, RawJobs(jobs)).Ok?
    ensures var p := PriorJobs(s, RawJobs(jobs)).value;
            && p.removed == multiset{} && p.metadata.Keys == Names(jobs)
            && forall i :: 0 <= i < |jobs| ==>
                 jobs[i].name in p.metadata && p.metadata[jobs[i].name] == jobs[i].metadata
  {
    if jobs != [] {
      hide ValidJob, PriorJobs, RawJobs, Names;
      var front, last := jobs[..|jobs| - 1], jobs[|jobs| - 1];
      assert last in jobs && forall j :: j in front ==> j in jobs;
      PriorOfWritten(s, front);
      JobsSnoc(jobs);
      PriorSnoc(s, RawJobs(front), PriorJobs(s, RawJobs(front)).value, last);
    }
  }

  lemma SameJobsAgain(s: Sources, prior: map<string, Metadata>, supplied: map<string, Metadata>,
                      again: map<string, Metadata>)
    requires AllDescribed(s.commands, prior, supplied)
    requires forall i :: 0 <= i < |s.commands| ==>
      s.commands[i].job in again && again[s.commands[i].job] == Chosen(prior, supplied, s.commands[i].job)
    ensures AllDescribed(s.commands, again, map[])
    ensures FreshJobs(s.commands, again, map[]) == FreshJobs(s.commands, prior, supplied)
  {
    forall i | 0 <= i < |s.commands|
      ensures Described(again, map[], s.commands[i].job)
    {}
  }

  /** Re-chaining again, with unchanged sources and nothing supplied, gives the same catalog and the same file, and
      finds nothing to add or remove. */
  lemma RechainIsIdempotent(s: Sources, d: Document, supplied: map<string, Metadata>)
    requires Rechain(s, d, supplied).Ok?
    ensures var r := Rechain(s, d, supplied).value;
            Rechain(s, r.document, map[]) == Ok(Rechained(r.catalog, r.document, {}, multiset{}))
  {
    hide ValidJob, RootsCheck, ControlsApart, NoDuplicates;
    var r, prior := Rechain(s, d, supplied).value, LoadPrior(s, d).value.metadata;
    var jobs := r.catalog.jobs;
    assert jobs == FreshJobs(s.commands, prior, supplied);
    forall j | j in jobs
      ensures ValidJob(j) && j.name in s.vocabulary
    {
      assert j.name in Names(jobs);
    }
    PriorOfWritten(s, jobs);
    var again := PriorJobs(s, RawJobs(jobs)).value.metadata;
    forall i | 0 <= i < |s.commands|
      ensures s.commands[i].job in again
      ensures again[s.commands[i].job] == Chosen(prior, supplied, s.commands[i].job)
    {
      assert jobs[i].name == s.commands[i].job;
    }
    SameJobsAgain(s, prior, supplied, again);
    assert Lacking(s, again) == {};
    assert LoadPrior(s, r.document) == Ok(Prior(again, multiset{}));
    assert Complete(s, r.document, jobs, s.requirementsSha.value) == r.catalog;
  }
}
