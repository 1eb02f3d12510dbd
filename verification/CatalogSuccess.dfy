/** Exactly when re-chaining succeeds, and what it then builds, said of the document, the sources and what was supplied
    (ci_rechain.py:118-289; ci_contract.py:483-573). */
module CatalogSuccess {
  import opened CatalogRechain

  // ----- the prior document -----

  predicate ListedAt(raw: seq<RawJob>, i: nat, job: string) { i < |raw| && raw[i].name == Some(job) }

  ghost predicate IsListed(raw: seq<RawJob>, job: string) { exists i: nat :: ListedAt(raw, i, job) }

  /** How often a name is listed. */
  function Times(raw: seq<RawJob>, job: string): nat {
    if raw == [] then 0 else (if raw[0].name == Some(job) then 1 else 0) + Times(raw[1..], job)
  }

  /** Nothing occurs twice. */
  predicate Single(xs: seq<string>) { forall x :: x in xs ==> multiset(xs)[x] == 1 }

  /** Nothing occurs twice, nothing is empty. */
  predicate Proper(xs: seq<string>) { Single(xs) && forall x :: x in xs ==> |x| > 0 }

  predicate MetadataSound(m: Metadata) {
    |m.category| > 0 && |m.profile| > 0 && |m.controls| > 0 && Proper(m.controls)
  }

  predicate JobSound(j: Job) {
    && |j.argv| > 0 && MetadataSound(j.metadata) && Proper(j.requirements)
    && match j.inventory case None => true case Some(inventory) => inventory.count >= 1
  }

  lemma {:induction false} SingleIs(xs: seq<string>)
    ensures Single(xs) <==> NoDuplicates(xs)
  {
    if xs != [] {
      var front, last := xs[..|xs| - 1], xs[|xs| - 1];
      SingleIs(front);
      assert xs == front + [last];
      assert forall x :: x in xs ==> multiset(xs)[x] == multiset(front)[x] + (if x == last then 1 else 0);
      if Single(xs) {
        assert multiset(xs)[last] == 1 && last !in front;
        assert forall x :: x in front ==> x in xs && x != last;
      }
    }
  }

  lemma ValidIs(j: Job)
    ensures ValidJob(j) <==> JobSound(j)
  {
    SingleIs(j.metadata.controls);
    SingleIs(j.requirements);
  }

  /** The list can be read: each entry has a name, and one still in the vocabulary is whole, sound and listed once. */
  predicate ListReads(vocabulary: set<string>, raw: seq<RawJob>) {
    forall i :: 0 <= i < |raw| ==>
      && raw[i].name.Some?
      && (raw[i].name.value in vocabulary ==>
            raw[i].fields.Some? && JobSound(raw[i].fields.value) && Times(raw, raw[i].name.value) == 1)
  }

  lemma {:induction false} TimesSnoc(raw: seq<RawJob>, last: RawJob, job: string)
    ensures Times(raw + [last], job) == Times(raw, job) + if last.name == Some(job) then 1 else 0
  {
    if raw == [] {
      assert raw + [last] == [last] && [last][1..] == [];
    } else {
      assert (raw + [last])[1..] == raw[1..] + [last];
      TimesSnoc(raw[1..], last, job);
    }
  }

  lemma {:induction false} TimesSome(raw: seq<RawJob>, job: string)
    ensures Times(raw, job) > 0 <==> IsListed(raw, job)
  {
    if raw != [] {
      TimesSome(raw[1..], job);
      if IsListed(raw[1..], job) {
        var i: nat :| ListedAt(raw[1..], i, job);
        assert ListedAt(raw, i + 1, job);
      }
      if raw[0].name == Some(job) { assert ListedAt(raw, 0, job); }
      if IsListed(raw, job) && raw[0].name != Some(job) {
        var i: nat :| ListedAt(raw, i, job);
        assert ListedAt(raw[1..], i - 1, job);
      }
    }
  }

  /** What reading the list gives: every surviving job with the metadata of its own entry, and each other name as often as
      it is listed. */
  ghost predicate PriorIs(vocabulary: set<string>, raw: seq<RawJob>, p: Prior) {
    && (forall job :: job in p.metadata <==> job in vocabulary && IsListed(raw, job))
    && (forall i: nat, job :: ListedAt(raw, i, job) && job in p.metadata ==>
          raw[i].fields.Some? && raw[i].fields.value.metadata == p.metadata[job])
    && (forall job :: p.removed[job] == if job in vocabulary then 0 else Times(raw, job))
  }

  lemma FrontReads(vocabulary: set<string>, front: seq<RawJob>, last: RawJob)
    ensures ListReads(vocabulary, front + [last]) <==>
            && ListReads(vocabulary, front) && last.name.Some?
            && (last.name.value in vocabulary ==>
                  !IsListed(front, last.name.value) && last.fields.Some? && JobSound(last.fields.value))
  {
    hide JobSound;
    var raw := front + [last];
    forall job ensures Times(raw, job) == Times(front, job) + if last.name == Some(job) then 1 else 0 {
      TimesSnoc(front, last, job);
    }
    forall job ensures Times(front, job) > 0 <==> IsListed(front, job) { TimesSome(front, job); }
    assert raw[|front|] == last && forall i :: 0 <= i < |front| ==> raw[i] == front[i];
    forall i | 0 <= i < |front| && front[i].name.Some? ensures IsListed(front, front[i].name.value) {
      assert ListedAt(front, i, front[i].name.value);
    }
  }

  lemma PriorStep(vocabulary: set<string>, front: seq<RawJob>, last: RawJob, p: Prior, q: Prior)
    requires PriorIs(vocabulary, front, p) && last.name.Some?
    requires
      if last.name.value in vocabulary
      then !IsListed(front, last.name.value) && last.fields.Some?
           && q == p.(metadata := p.metadata[last.name.value := last.fields.value.metadata])
      else q == p.(removed := p.removed + multiset{last.name.value})
    ensures PriorIs(vocabulary, front + [last], q)
  {
    var raw, name := front + [last], last.name.value;
    forall job ensures IsListed(raw, job) <==> IsListed(front, job) || job == name {
      ListedSnoc(front, last, job);
    }
    forall job ensures Times(raw, job) == Times(front, job) + if job == name then 1 else 0 {
      TimesSnoc(front, last, job);
    }
    forall i: nat, job | ListedAt(raw, i, job) && job in q.metadata
      ensures raw[i].fields.Some? && raw[i].fields.value.metadata == q.metadata[job]
    {
      if i < |front| {
        assert ListedAt(front, i, job) && IsListed(front, job);
      }
    }
  }

  lemma ListedSnoc(front: seq<RawJob>, last: RawJob, job: string)
    ensures IsListed(front + [last], job) <==> IsListed(front, job) || last.name == Some(job)
  {
    var raw := front + [last];
    if IsListed(front, job) {
      var i: nat :| ListedAt(front, i, job);
      assert ListedAt(raw, i, job);
    }
    if last.name == Some(job) { assert ListedAt(raw, |front|, job); }
    if IsListed(raw, job) && last.name != Some(job) {
      var i: nat :| ListedAt(raw, i, job);
      assert ListedAt(front, i, job);
    }
  }

  /** The list is read exactly when it can be, and then means what it should. */
  lemma {:induction false} PriorJobsIff(s: Sources, raw: seq<RawJob>)
    ensures PriorJobs(s, raw).Ok? <==> ListReads(s.vocabulary, raw)
    ensures PriorJobs(s, raw).Ok? ==> PriorIs(s.vocabulary, raw, PriorJobs(s, raw).value)
  {
    hide ListReads, PriorIs, ValidJob, JobSound, IsListed;
    if raw == [] {
      NothingRead(s.vocabulary);
    } else {
      var front, last := raw[..|raw| - 1], raw[|raw| - 1];
      assert raw == front + [last];
      PriorJobsIff(s, front);
      FrontReads(s.vocabulary, front, last);
      if last.fields.Some? { ValidIs(last.fields.value); }
      if PriorJobs(s, front).Ok? && last.name.Some? {
        var p := PriorJobs(s, front).value;
        SurvivorListed(s.vocabulary, front, p, last.name.value);
        if PriorJobs(s, raw).Ok? { PriorStep(s.vocabulary, front, last, p, PriorJobs(s, raw).value); }
      }
    }
  }

  lemma NothingRead(vocabulary: set<string>)
    ensures ListReads(vocabulary, []) && PriorIs(vocabulary, [], Prior(map[], multiset{}))
  {}

  lemma SurvivorListed(vocabulary: set<string>, raw: seq<RawJob>, p: Prior, job: string)
    requires PriorIs(vocabulary, raw, p)
    ensures job in p.metadata <==> job in vocabulary && IsListed(raw, job)
  {}

  // ----- what is described -----

  /** The document has a first version, an identity and a list that can be read. */
  predicate DocumentReads(s: Sources, d: Document) {
    && d.catalog.version == 1
    && d.catalog.identity.Some? && |d.catalog.identity.value| > 0
    && d.catalog.securityId.Some? && |d.catalog.securityId.value| > 0
    && d.catalog.jobs.Some? && ListReads(s.vocabulary, d.catalog.jobs.value)
  }

  /** One command for each job of the vocabulary, and no other. */
  ghost predicate CommandsCover(s: Sources) {
    && (forall i :: 0 <= i < |s.commands| ==> s.commands[i].job in s.vocabulary)
    && (forall job :: job in s.vocabulary ==> exists i :: 0 <= i < |s.commands| && s.commands[i].job == job)
    && (forall i, j :: 0 <= i < |s.commands| && 0 <= j < |s.commands| && i != j ==>
          s.commands[i].job != s.commands[j].job)
  }

  /** Each job of the vocabulary is either listed in the document or described by what was supplied, not both; and nothing
      else was supplied. */
  ghost predicate DescribedOnce(s: Sources, raw: seq<RawJob>, supplied: map<string, Metadata>) {
    && (forall job :: job in s.vocabulary ==> (IsListed(raw, job) <==> job !in supplied))
    && (forall job :: job in supplied ==> job in s.vocabulary)
  }

  /** This is the metadata of the job: that of its entry, or the supplied one if it has none. */
  ghost predicate Uses(raw: seq<RawJob>, supplied: map<string, Metadata>, job: string, m: Metadata) {
    if IsListed(raw, job)
    then exists i: nat :: ListedAt(raw, i, job) && raw[i].fields.Some? && raw[i].fields.value.metadata == m
    else job in supplied && supplied[job] == m
  }

  /** What the built catalog needs: commands that can run, sound metadata, no control of two jobs, a plain list of trusted
      requirements. */
  ghost predicate CatalogSound(s: Sources, raw: seq<RawJob>, supplied: map<string, Metadata>) {
    && (forall i :: 0 <= i < |s.commands| ==>
          |s.commands[i].argv| > 0
          && (s.commands[i].inventory.Some? ==> s.commands[i].inventory.value.count >= 1))
    && (forall job, m :: job in s.vocabulary && Uses(raw, supplied, job, m) ==> MetadataSound(m))
    && (forall job, other, m, n | job in s.vocabulary && other in s.vocabulary && job != other
                                 && Uses(raw, supplied, job, m) && Uses(raw, supplied, other, n)
          :: forall c :: c in m.controls ==> c !in n.controls)
    && Single(s.trusted)
  }

  // ----- the theorem -----

  lemma LoadPriorIff(s: Sources, d: Document)
    ensures LoadPrior(s, d).Ok? <==> DocumentReads(s, d)
    ensures LoadPrior(s, d).Ok? ==>
              d.catalog.jobs.Some? && PriorIs(s.vocabulary, d.catalog.jobs.value, LoadPrior(s, d).value)
  {
    hide ListReads, PriorIs;
    if d.catalog.jobs.Some? { PriorJobsIff(s, d.catalog.jobs.value); }
  }

  lemma CommandsCoverIff(s: Sources)
    ensures CommandsMatch(s) <==> CommandsCover(s)
  {
    var jobs := set c | c in s.commands :: c.job;
    assert forall i :: 0 <= i < |s.commands| ==> s.commands[i].job in jobs;
    forall job | job in jobs ensures exists i :: 0 <= i < |s.commands| && s.commands[i].job == job {
      var c :| c in s.commands && c.job == job;
      var i :| 0 <= i < |s.commands| && s.commands[i] == c;
    }
  }

  lemma DescribedIff(s: Sources, raw: seq<RawJob>, p: Prior, supplied: map<string, Metadata>)
    requires CommandsCover(s) && PriorIs(s.vocabulary, raw, p)
    ensures AllDescribed(s.commands, p.metadata, supplied) && supplied.Keys - Lacking(s, p.metadata) == {}
            <==> DescribedOnce(s, raw, supplied)
  {
    hide IsListed;
    if AllDescribed(s.commands, p.metadata, supplied) && supplied.Keys - Lacking(s, p.metadata) == {} {
      forall job | job in supplied ensures job in Lacking(s, p.metadata) {
        assert job !in supplied.Keys - Lacking(s, p.metadata);
      }
      forall job | job in s.vocabulary ensures IsListed(raw, job) <==> job !in supplied {
        var i :| 0 <= i < |s.commands| && s.commands[i].job == job;
        assert Described(p.metadata, supplied, s.commands[i].job);
      }
    }
    if DescribedOnce(s, raw, supplied) {
      forall i | 0 <= i < |s.commands| ensures Described(p.metadata, supplied, s.commands[i].job) {}
      assert supplied.Keys - Lacking(s, p.metadata) == {};
    }
  }

  lemma UsesIs(s: Sources, raw: seq<RawJob>, p: Prior, supplied: map<string, Metadata>, job: string, m: Metadata)
    requires PriorIs(s.vocabulary, raw, p) && DescribedOnce(s, raw, supplied) && job in s.vocabulary
    ensures Described(p.metadata, supplied, job)
    ensures Uses(raw, supplied, job, m) <==> m == Chosen(p.metadata, supplied, job)
  {
    if IsListed(raw, job) {
      var i: nat :| ListedAt(raw, i, job);
      assert raw[i].fields.Some? && raw[i].fields.value.metadata == p.metadata[job];
    }
  }

  lemma ShapedIff(s: Sources, d: Document, raw: seq<RawJob>, p: Prior, supplied: map<string, Metadata>, sha: Sha)
    requires DocumentReads(s, d) && d.catalog.jobs == Some(raw) && PriorIs(s.vocabulary, raw, p)
    requires CommandsCover(s) && DescribedOnce(s, raw, supplied) && AllDescribed(s.commands, p.metadata, supplied)
    ensures WellShaped(s, Complete(s, d, FreshJobs(s.commands, p.metadata, supplied), sha))
            <==> CatalogSound(s, raw, supplied)
  {
    hide PriorIs, ListReads, DescribedOnce, CommandsCover, ValidJob, ChosenSound, CatalogSound, ControlsApart,
      NoDuplicates, Single, Names, DistinctJobs;
    var jobs := FreshJobs(s.commands, p.metadata, supplied);
    var c := Complete(s, d, jobs, sha);
    assert c.jobs == jobs && c.unverified == s.trusted && c.identity != "" && c.securityId != "";
    AllDescribedIn(s, raw, p, supplied);
    JobsAre(s, p.metadata, supplied);
    ChosenIs(s, p.metadata, supplied);
    SingleIs(s.trusted);
    SoundIff(s, raw, p, supplied);
  }

  lemma AllDescribedIn(s: Sources, raw: seq<RawJob>, p: Prior, supplied: map<string, Metadata>)
    requires PriorIs(s.vocabulary, raw, p) && DescribedOnce(s, raw, supplied)
    ensures forall job :: job in s.vocabulary ==> Described(p.metadata, supplied, job)
  {
    hide PriorIs, DescribedOnce, Uses;
    forall job | job in s.vocabulary ensures Described(p.metadata, supplied, job) {
      UsesIs(s, raw, p, supplied, job, Metadata([], "", "", [], []));
    }
  }

  lemma NothingProper()
    ensures Proper([])
  {}

  /** The built jobs are valid and apart exactly when what they are built of is. */
  lemma ChosenIs(s: Sources, prior: map<string, Metadata>, supplied: map<string, Metadata>)
    requires CommandsCover(s) && AllDescribed(s.commands, prior, supplied)
    requires forall job :: job in s.vocabulary ==> Described(prior, supplied, job)
    ensures
      var jobs := FreshJobs(s.commands, prior, supplied);
      ChosenSound(s, prior, supplied)
      <==> (forall j :: j in jobs ==> ValidJob(j)) && ControlsApart(jobs) && Single(s.trusted)
  {
    hide ControlsApart, Single, MetadataSound, ValidJob;
    var cs, jobs := s.commands, FreshJobs(s.commands, prior, supplied);
    forall i | 0 <= i < |jobs|
      ensures ValidJob(jobs[i]) <==>
                |cs[i].argv| > 0 && (cs[i].inventory.Some? ==> cs[i].inventory.value.count >= 1)
                && MetadataSound(Chosen(prior, supplied, cs[i].job))
    {
      ValidIs(jobs[i]);
      NothingProper();
    }
    assert (forall j :: j in jobs ==> ValidJob(j)) <==> forall i :: 0 <= i < |jobs| ==> ValidJob(jobs[i]);
    ApartIff(s, prior, supplied);
  }

  /** What the built catalog needs, of each job's own metadata. */
  ghost predicate ChosenSound(s: Sources, prior: map<string, Metadata>, supplied: map<string, Metadata>)
    requires forall job :: job in s.vocabulary ==> Described(prior, supplied, job)
  {
    && (forall i :: 0 <= i < |s.commands| ==>
          |s.commands[i].argv| > 0
          && (s.commands[i].inventory.Some? ==> s.commands[i].inventory.value.count >= 1))
    && (forall job :: job in s.vocabulary ==> MetadataSound(Chosen(prior, supplied, job)))
    && (forall job, other :: job in s.vocabulary && other in s.vocabulary && job != other ==>
          ControlsDiffer(Chosen(prior, supplied, job), Chosen(prior, supplied, other)))
    && Single(s.trusted)
  }

  predicate ControlsDiffer(m: Metadata, n: Metadata) { forall c :: c in m.controls ==> c !in n.controls }

  lemma SoundIff(s: Sources, raw: seq<RawJob>, p: Prior, supplied: map<string, Metadata>)
    requires PriorIs(s.vocabulary, raw, p) && DescribedOnce(s, raw, supplied)
    requires forall job :: job in s.vocabulary ==> Described(p.metadata, supplied, job)
    ensures CatalogSound(s, raw, supplied) <==> ChosenSound(s, p.metadata, supplied)
  {
    hide PriorIs, DescribedOnce, Uses, MetadataSound, Single;
    forall job, m | job in s.vocabulary
      ensures Uses(raw, supplied, job, m) <==> m == Chosen(p.metadata, supplied, job)
    {
      UsesIs(s, raw, p, supplied, job, m);
    }
  }

  lemma JobsAre(s: Sources, prior: map<string, Metadata>, supplied: map<string, Metadata>)
    requires CommandsCover(s) && AllDescribed(s.commands, prior, supplied)
    ensures
      var jobs := FreshJobs(s.commands, prior, supplied);
      && DistinctJobs(jobs) && Names(jobs) == s.vocabulary && forall j :: j in jobs ==> j.requirements == []
  {
    var jobs := FreshJobs(s.commands, prior, supplied);
    forall job | job in s.vocabulary ensures job in Names(jobs) {
      var i :| 0 <= i < |s.commands| && s.commands[i].job == job;
      assert jobs[i] in jobs;
    }
  }

  lemma ApartIff(s: Sources, prior: map<string, Metadata>, supplied: map<string, Metadata>)
    requires CommandsCover(s) && AllDescribed(s.commands, prior, supplied)
    requires forall job :: job in s.vocabulary ==> Described(prior, supplied, job)
    ensures ControlsApart(FreshJobs(s.commands, prior, supplied)) <==>
              forall job, other :: job in s.vocabulary && other in s.vocabulary && job != other ==>
                ControlsDiffer(Chosen(prior, supplied, job), Chosen(prior, supplied, other))
  {
    var jobs, cs := FreshJobs(s.commands, prior, supplied), s.commands;
    if ControlsApart(jobs) {
      forall job, other | job in s.vocabulary && other in s.vocabulary && job != other
        ensures ControlsDiffer(Chosen(prior, supplied, job), Chosen(prior, supplied, other))
      {
        var i :| 0 <= i < |cs| && cs[i].job == job;
        var j :| 0 <= j < |cs| && cs[j].job == other;
        if i < j {
          assert forall c :: c in jobs[i].metadata.controls ==> c !in jobs[j].metadata.controls;
        } else {
          assert forall c :: c in jobs[j].metadata.controls ==> c !in jobs[i].metadata.controls;
        }
      }
    }
    if forall job, other :: job in s.vocabulary && other in s.vocabulary && job != other ==>
         ControlsDiffer(Chosen(prior, supplied, job), Chosen(prior, supplied, other)) {
      forall i, j | 0 <= i < j < |jobs|
        ensures forall c :: c in jobs[i].metadata.controls ==> c !in jobs[j].metadata.controls
      {
        assert cs[i].job in s.vocabulary && cs[j].job in s.vocabulary && cs[i].job != cs[j].job;
        assert ControlsDiffer(Chosen(prior, supplied, cs[i].job), Chosen(prior, supplied, cs[j].job));
      }
    }
  }

  /** Re-chaining succeeds if and only if: the document can be read; there is one command for each job of the vocabulary;
      each job is described once, by its entry or by what was supplied; the requirements can be read; and the commands,
      the metadata and the trusted list are fit for a catalog. */
  lemma RechainsIff(s: Sources, d: Document, supplied: map<string, Metadata>)
    ensures Rechain(s, d, supplied).Ok? <==>
            && DocumentReads(s, d) && CommandsCover(s) && s.requirementsSha.Some?
            && DescribedOnce(s, d.catalog.jobs.value, supplied) && CatalogSound(s, d.catalog.jobs.value, supplied)
  {
    hide DocumentReads, CommandsMatch, CommandsCover, DescribedOnce, CatalogSound, PriorIs, RootsCheck, WellShaped,
      Complete, LoadPrior;
    LoadPriorIff(s, d);
    CommandsCoverIff(s);
    if DocumentReads(s, d) && CommandsCover(s) {
      var p, raw := LoadPrior(s, d).value, d.catalog.jobs.value;
      DescribedIff(s, raw, p, supplied);
      if AllDescribed(s.commands, p.metadata, supplied) && DescribedOnce(s, raw, supplied) && s.requirementsSha.Some? {
        ReadsSome(s, d);
        ShapedIff(s, d, raw, p, supplied, s.requirementsSha.value);
        RootsOfComplete(s, d, FreshJobs(s.commands, p.metadata, supplied), s.requirementsSha.value);
      }
    }
  }

  lemma ReadsSome(s: Sources, d: Document)
    requires DocumentReads(s, d)
    ensures d.catalog.identity.Some? && d.catalog.securityId.Some? && d.catalog.jobs.Some?
  {}

  /** What a success builds: for each command, in order, one job with that command's name, arguments, kind and inventory,
      no requirement, and its own metadata; the document's identities, evidence and generated contracts as they were;
      the jobs that had no entry reported as added, and the names outside the vocabulary, as often as they were listed,
      as removed. */
  lemma RechainBuilds(s: Sources, d: Document, supplied: map<string, Metadata>)
    requires Rechain(s, d, supplied).Ok?
    ensures
      var r, raw := Rechain(s, d, supplied).value, d.catalog.jobs.value;
      && |r.catalog.jobs| == |s.commands|
      && (forall i :: 0 <= i < |s.commands| ==>
            var j, c := r.catalog.jobs[i], s.commands[i];
            (j.name, j.argv, j.kind, j.inventory, j.requirements) == (c.job, c.argv, c.kind, c.inventory, [])
            && Uses(raw, supplied, j.name, j.metadata))
      && Some(r.catalog.identity) == d.catalog.identity && Some(r.catalog.securityId) == d.catalog.securityId
      && Some(r.catalog.requirementsSha) == s.requirementsSha && r.catalog.unverified == s.trusted
      && r.document.evidence == d.evidence && r.document.generated == d.generated
      && r.document.catalog.version == 1 && r.document.catalog.identity == d.catalog.identity
      && r.document.catalog.securityId == d.catalog.securityId
      && r.document.catalog.jobs == Some(RawJobs(r.catalog.jobs))
      && (forall job :: job in r.added <==> job in s.vocabulary && !IsListed(raw, job))
      && (forall job :: r.removed[job] == if job in s.vocabulary then 0 else Times(raw, job))
  {
    hide DocumentReads, CommandsCover, DescribedOnce, CatalogSound, PriorIs, RootsCheck, WellShaped, Uses, IsListed,
      CommandsMatch, LoadPrior, RawJobs;
    RechainsIff(s, d, supplied);
    LoadPriorIff(s, d);
    ReadsSome(s, d);
    var raw, p := d.catalog.jobs.value, LoadPrior(s, d).value;
    forall i | 0 <= i < |s.commands|
      ensures Uses(raw, supplied, s.commands[i].job, Chosen(p.metadata, supplied, s.commands[i].job))
    {
      CoveredJob(s, i);
      UsesIs(s, raw, p, supplied, s.commands[i].job, Chosen(p.metadata, supplied, s.commands[i].job));
    }
    forall job ensures job in p.metadata <==> job in s.vocabulary && IsListed(raw, job) {
      SurvivorListed(s.vocabulary, raw, p, job);
    }
    RemovedAre(s.vocabulary, raw, p);
  }

  /** The roots of what a success builds: the source root is the digest of everything the catalog holds but its roots,
      the catalog root that of the same and the source root. */
  lemma RootsCoverTheCatalog(s: Sources, d: Document, supplied: map<string, Metadata>)
    requires Rechain(s, d, supplied).Ok?
    ensures
      var c := Rechain(s, d, supplied).value.catalog;
      var held := Content(multiset(c.jobs), c.securityId, c.identity, c.requirementsSha, c.unverified, None);
      c.sourceRoot == s.digest(held) && c.catalogRoot == s.digest(held.(sourceRoot := Some(c.sourceRoot)))
  {
    hide LoadPrior, CommandsMatch, WellShaped, RootsCheck, Written;
    LoadPriorIff(s, d);
    var prior := LoadPrior(s, d).value;
    var c := Complete(s, d, FreshJobs(s.commands, prior.metadata, supplied), s.requirementsSha.value);
    assert Rechain(s, d, supplied).value.catalog == c;
    RootsAre(s, c, d, FreshJobs(s.commands, prior.metadata, supplied), s.requirementsSha.value);
  }

  lemma RootsAre(s: Sources, c: Catalog, d: Document, jobs: seq<Job>, sha: Sha)
    requires d.catalog.identity.Some? && d.catalog.securityId.Some? && c == Complete(s, d, jobs, sha)
    ensures
      var held := Content(multiset(c.jobs), c.securityId, c.identity, c.requirementsSha, c.unverified, None);
      c.sourceRoot == s.digest(held) && c.catalogRoot == s.digest(held.(sourceRoot := Some(c.sourceRoot)))
  {}

  lemma CoveredJob(s: Sources, i: nat)
    requires CommandsCover(s) && i < |s.commands|
    ensures s.commands[i].job in s.vocabulary
  {}

  lemma RemovedAre(vocabulary: set<string>, raw: seq<RawJob>, p: Prior)
    requires PriorIs(vocabulary, raw, p)
    ensures forall job :: p.removed[job] == if job in vocabulary then 0 else Times(raw, job)
  {}
}
