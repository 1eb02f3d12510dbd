# Verified model of the platform policy tools and the local turn API

This project models, in Dafny, the parts of the repository in which a wrong step would be hard to notice, and
proves what they promise over every input, every run or every interleaving. Where the source changes fields in
place, a class or a loop does so here too, and its contract equates the result with a specification function; the
claims are then proved of that function. `dafny verify dfyconfig.toml` checks the whole project.

**Retention store** (`Retention*.dfy`). A tenant-bound store of operational and audit records, legal holds with their
history, expiry, reserved deletion candidates, retention runs and break-glass grants, under a monotonic clock. A
world is the store together with every record it ever held and the log of grant transitions; a run is any sequence of
commands, whoever issues them and however they are answered. The safety claims are about every reachable world. One
of them is delicate: completion checks a deletion against a closed hold interval, but a hold can be placed at the very
instant of an earlier deletion. The claim with an open placement is proved of every run. The closed one is refuted by a
concrete run, and it holds after exactly those runs in which no hold was placed on a scope at the instant of a deletion
there: no other operation makes or breaks it. Beside the safety claims, each operation's exact condition of success and
its effect are stated of records, holds, runs and grants, without the functions that compute them.

**CI publication** (`Ci*.dfy`). Publishers stage a generation, take the lock, rename it into place without replacing,
switch `latest`, and ask an external authority to finalize; the request may be refused, superseded, or committed with
its reply lost. Readers take no lock and look at pointer and authority twice. The model is a transition system over
authority, directory, publishers and readers in which every action is one atomic step, so its runs are all
interleavings. Crashes are steps as well. Beside safety: from every reachable world with a free lock a publish call that
meets no interference returns exactly if its own checks pass, and a load proves what it returns even in a directory that
anyone may change between its steps.

**Release finalization** (`Release*.dfy`, `EvidenceWalk.dfy`). A finalizer and a verifier derive references, digests,
roots and bindings independently; the theorems say when they agree, exactly which releases are finalized and exactly
which envelopes verify, and that no accepted envelope was forged. Envelopes are accepted through an authority that
consumes a nonce once. The attachment manifest is compared with a walk over the evidence root.

**Tree digests** (`Tree*.dfy`). A recursive walk over an inode graph, which may be cyclic or shared, feeds a digest. The
walk is proved to end, to accept exactly the graphs without aliases, and to feed a stream from which the included tree
can be read back although directories carry no end marker.

**HTTP/1.1 responses** (`Wire*.dfy`). The writer that frames an application's events, against a client that reads head,
framing and chunked content back from the bytes (sections 2.2, 5, 6.3 and 7.1 of RFC 9112). The server writes an
application's header names and values unchecked, so the head is read back exactly when each fits on one line.

**Deployment evidence** (`Deployment*.dfy`, `CaptureText.dfy`, `LengthFraming.dfy`). Evidence is flattened to a list of
fields without counts and digested behind length prefixes. Validation fixes every length that the flat list leaves
open, and is stated control by control and vector by vector. The names in the field list of a proof are all 27 of its fields; none is omitted.

**Workflow YAML** (`Yaml*.dfy`). Tokenizer and mutually recursive parser of the strict subset, renderings that choose for
each scalar between bare, single-quoted, double-quoted and block writing, exactly which texts each style can say, and the
proof that the subset is exactly the parser's range. A block scalar that opens a sequence item takes the item's later
fields with it, because its extent is judged by the indentation of the dash; the rendering therefore puts a comment line
after such a block, and the rendering without it is proved to read back exactly when no item needs one.

**SECURITY evidence and requirement records** (`EvidenceText.dfy`, `SecurityEvidence.dfy`, `Requirement*.dfy`). What one
process writes into a log and what another recovers and counts. Summary lines count the numbers they state and add up,
with one exception that the patterns have: a line that ends in the word of a count hides a count at the start of the next. A count taken before the
records are appended equals the one rederived later exactly when the records count nothing on their own, which a bound
name can prevent.

**Catalog re-chaining** (`Catalog*.dfy`) and **per-Run model pinning** (`Turn*.dfy`), the latter as a transition
system over concurrent turn requests, striped locks, the provider and the store.

Conventions. A digest is an arbitrary function; a theorem that needs two digests not to collide says so about those two
byte strings. Signatures are pairs of functions with `verify(m, sign(m))`; a theorem that needs them unforgeable says that
what is taken was issued. Canonical JSON and other codecs are
functions with the round trip they are relied on for. Instants are integers. Errors are values.

## Model

| member | source | states |
|---|---|---|
| `RetentionTheorems.NothingDeletedDuringAHold` | tools/platform_policy/retention.py:383-411 | In the store reached by any command sequence: for every completed run, every candidate record of it, every hold ever recorded on that record's scope (as last updated) and every receipt of the run, the deletion is not strictly after the placement and at or before the release |
| `RetentionTie.ClosedClaimIsFalse` | tools/platform_policy/retention.py:592-635 | The same claim with the placement instant included is false of the store: a reachable run in which a hold is placed at the very instant of an earlier deletion |
| `RetentionClosed.ClosedSafeIff` | tools/platform_policy/retention.py:392-411 | After any command sequence from an empty store the claim with the placement instant included holds if and only if no command of it was a successful placement on a scope of which a completed run already had a receipt dated that very instant |
| `RetentionClosed.OnlyPlacementMatters` | tools/platform_policy/retention.py:215-1221 | In a reachable store every operation but a placement leaves the closed claim as it was, true or false: completions, releases and retries included |
| `RetentionClosed.PlacingKeepsClosedIff` | tools/platform_policy/retention.py:592-635 | In a reachable store a successful placement leads to the closed claim if and only if it held before and no completed run has a receipt on that scope dated exactly now |
| `RetentionClosed.ReleasedClear` | tools/platform_policy/retention.py:638-682 | Releasing a hold changes the closed claim of no receipt that was not strictly inside it |
| `RetentionTheorems.ActiveHoldKeepsRecords` | tools/platform_policy/retention.py:1119-1204 | In a reachable store, while the hold on a scope is unreleased, no operation at all removes a record of that scope |
| `RetentionExpiry.ExpiredIff` | tools/platform_policy/retention.py:685-726 | In a reachable store a sweep by a permitted operator leaves a record expired if and only if it was expired before, or no hold on its scope is unreleased and it is at least 90 (operational) or 365 (audit) days old |
| `RetentionExpiry.ReceiptIsExact` | tools/platform_policy/retention.py:685-726 | The receipt of a sweep lists, for each of the two record lists in its order, exactly the records the sweep newly expired, with the tenant, the policy version and the instant |
| `RetentionExpiry.HeldNeverExpires` | tools/platform_policy/retention.py:215-1221 | In a reachable store, while a hold on a scope is unreleased, no operation at all expires a record of that scope |
| `RetentionExpiry.StartTakesWhatIsDue` | tools/platform_policy/retention.py:1033-1082 | Starting a run under an unknown key and an unused identifier succeeds exactly when some record is due and nothing given is empty; it takes, in list order, exactly the records that are expired, on no unreleased hold, old enough and in no incomplete run, and reserves exactly those |
| `RetentionAnswers.StrangersChangeNothing` | tools/platform_policy/retention.py:284-313 | Whoever is not an operator of the tenant, or acts before the last instant or before the policy takes effect, changes nothing at all by any operation |
| `RetentionAnswers.AppendOperationalIff` | tools/platform_policy/retention.py:436-449 | Taken exactly from a permitted operator, for his tenant, under an unused identifier; it then stands last |
| `RetentionAnswers.AppendAuditIff` | tools/platform_policy/retention.py:452-467 | The same for an audit record, if no field of it is empty and its checksum is that of its content |
| `RetentionAnswers.ReadAuditIff` | tools/platform_policy/retention.py:527-551 | In a reachable store an audit record is read exactly if it is there, not expired and its reading can be recorded; the record of that identifier is returned and the reading recorded under its scope |
| `RetentionAnswers.ChangePolicyIff` | tools/platform_policy/retention.py:554-589 | A policy is changed exactly on the one record that evidences this very change, now, by this operator, under an unused identifier; then record, identifier, clock and policy change together, and otherwise nothing does |
| `RetentionAnswers.PlaceHoldIff` | tools/platform_policy/retention.py:592-635 | Placed exactly by a permitted operator, on a scope without an unreleased hold, under two different unused identifiers and with every text given; the hold starts now and is recorded, current and in the history |
| `RetentionAnswers.ReleaseHoldIff` | tools/platform_policy/retention.py:638-682 | In a reachable store released exactly if it is the current hold of some scope and unreleased, with a reason, under an unused event identifier; it ends now, in the history as well |
| `RetentionAnswers.CompleteRunIs` | tools/platform_policy/retention.py:1119-1204 | In a reachable store a completion is tried once more if a candidate is under a hold or a receipt falls in a recorded one; else it completes exactly when each candidate has one verified, bound receipt on each system and there is no other receipt, and then exactly the candidates are gone; else only the clock changes |
| `RetentionAnswers.CompletionReplays` | tools/platform_policy/retention.py:1119-1204 | A foreign receipt or an unknown run is refused; a complete run is returned as it is to the receipts that completed it, and to no others |
| `RetentionAnswers.VerifiesIff` | tools/platform_policy/models.py:765-804 | A run verifies exactly when it has candidates, ended no earlier than its cutoff with each candidate proved deleted once on each system by then, and its three digests are those of its manifest, receipts and content |
| `RetentionAnswers.RequestIff` | tools/platform_policy/retention.py:729-796 | A grant is given exactly for reading metadata, for a time not over, at the current epoch, under two different unused identifiers; any other request of a permitted operator is recorded with its reason and changes no grant |
| `RetentionAnswers.MoveGrantIff` | tools/platform_policy/retention.py:799-1030 | A grant is approved, revoked or expired exactly if it is open and the step may be taken by this operator now (approved by another than its requester, once, in time), and nothing else of it changes; a refused step is recorded and changes no grant |
| `RetentionAnswers.UseIff` | tools/platform_policy/retention.py:864-904 | A grant is used exactly for the requester, tenant, resource, action and epoch it was given for, while approved, open and not over; every attempt, covered or not, leaves its record if it can be kept, and nothing else |
| `RetentionTheorems.OnlyCompletionRemoves` | tools/platform_policy/retention.py:1119-1204 | A record leaves the store only as a candidate of an incomplete run that a completion at a valid instant has just finished, and only if no hold blocked it |
| `RetentionTheorems.GoneMeansAccountedFor` | tools/platform_policy/retention.py:413-433 | In a reachable store every record that was ever stored and is gone belongs to exactly one run, which is complete and verifies, has exactly one verified, bound receipt for it on every required system, dated after the cutoff, and the record was at least 90 (operational) or 365 (audit) days old at that cutoff, whatever the policy became |
| `RetentionTheorems.ReservedIffIncompleteCandidate` | tools/platform_policy/retention.py:1033-1082 | In every reachable store the reserved identifiers are exactly the candidates of incomplete runs, each of one run only; a reserved identifier is expired and names a record that is still there, and only one |
| `RetentionTheorems.IdentifiersNameOneThing` | tools/platform_policy/retention.py:318-322 | Over all time no two records share an identifier, and records, holds, grants and runs never share one |
| `RetentionTheorems.CompletedRunIsFinal` | tools/platform_policy/retention.py:1119-1204 | In a reachable store, once complete, a run's stored value is unchanged by every next operation, and it verifies |
| `RetentionTheorems.CompletedForever` | tools/platform_policy/models.py:765-804 | A run that is complete and verifies after some commands is the same run, and still verifies, after any further commands |
| `RetentionTheorems.CompletedVerify` | tools/platform_policy/models.py:765-804 | Every run that is complete in any reachable store verifies |
| `RetentionTheorems.EveryUseWasLawful` | tools/platform_policy/retention.py:864-904 | Every successful break-glass use in any run: one earlier request by the same principal at the same restore epoch, one earlier approval by a different principal, the use before expiry, no revocation or expiry before it, and no second request or approval ever |
| `RetentionTheorems.ClosingIsAbsorbing` | tools/platform_policy/retention.py:907-967 | After a grant was revoked or expired nothing more ever happens to it, so the two exclude each other |
| `RetentionTheorems.TenantNeverChanges` | tools/platform_policy/retention.py:237-264 | No command sequence changes the tenant a store is bound to |
| `RetentionSafety.StepKeeps` | tools/platform_policy/retention.py:215-1221 | Every operation, refused or not, keeps the whole invariant: holds, histories, runs, conservation of records, hold safety, grants and the log of what happened |
| `RetentionSafety.PlayKeeps` | tools/platform_policy/retention.py:215-1221 | The invariant holds after every command sequence from an empty store |
| `RetentionSafety.CommitKeeps` | tools/platform_policy/retention.py:1119-1204 | Committing a verified completion that no hold of its candidates' scopes forbids keeps the invariant |
| `RetentionSafety.CompletedVerifies` | tools/platform_policy/models.py:765-804 | Whatever receipts a completion accepts, the run it stores verifies |
| `RetentionSafety.CandidateScopeFound` | tools/platform_policy/retention.py:374-381 | The scope of a candidate of an incomplete run is always found, and is the scope of the record it was |
| `RetentionClass.RetentionStore.constructor` | tools/platform_policy/retention.py:237-264 | A new store is the empty store of its tenant and policy and satisfies the invariant |
| `RetentionClass.RetentionStore.AppendOperational` | tools/platform_policy/retention.py:436-449 | Does exactly the specified step and returns its result |
| `RetentionClass.RetentionStore.AppendAudit` | tools/platform_policy/retention.py:452-467 | Does exactly the specified step and returns its result |
| `RetentionClass.RetentionStore.ReadAudit` | tools/platform_policy/retention.py:527-551 | Does exactly the specified step; the access record is appended only for a readable audit |
| `RetentionClass.RetentionStore.ChangePolicy` | tools/platform_policy/retention.py:554-589 | Does exactly the specified step: policy, evidence record, identifier and clock change together or not at all but for the refusals that consume the clock |
| `RetentionClass.RetentionStore.PlaceLegalHold` | tools/platform_policy/retention.py:592-635 | Does exactly the specified step on holds, histories, audits and identifiers |
| `RetentionClass.RetentionStore.ReleaseLegalHold` | tools/platform_policy/retention.py:638-682 | Does exactly the specified step: the hold and its entry in the history are replaced alike |
| `RetentionClass.RetentionStore.Expire` | tools/platform_policy/retention.py:685-726 | Does in place exactly the specified sweep, receipt included; what a sweep does to each record is stated by `RetentionExpiry.ExpiredIff` and `RetentionExpiry.ReceiptIsExact` |
| `RetentionClass.RetentionStore.StartRetentionRun` | tools/platform_policy/retention.py:1033-1082 | Does exactly the specified step, the replay of a known key included |
| `RetentionClass.RetentionStore.ResumeRetentionRun` | tools/platform_policy/retention.py:1100-1116 | Does exactly the specified step |
| `RetentionClass.RetentionStore.CompleteRetentionRun` | tools/platform_policy/retention.py:1119-1204 | Does exactly the specified step: delayed by a hold, refused, or committed; a replay returns the stored run |
| `RetentionClass.RetentionStore.RequestBreakGlass` | tools/platform_policy/retention.py:729-796 | Does exactly the specified step, the recorded refusals included |
| `RetentionClass.RetentionStore.ApproveBreakGlass` | tools/platform_policy/retention.py:799-861 | Does exactly the specified step |
| `RetentionClass.RetentionStore.UseBreakGlass` | tools/platform_policy/retention.py:864-904 | Does exactly the specified step at the epoch its authority answers |
| `RetentionClass.RetentionStore.RevokeBreakGlass` | tools/platform_policy/retention.py:907-967 | Does exactly the specified step |
| `RetentionClass.RetentionStore.ExpireBreakGlass` | tools/platform_policy/retention.py:970-1030 | Does exactly the specified step |
| `RetentionClass.RetentionStore.VerifyStored` | tools/platform_policy/retention.py:1207-1221 | Answers yes exactly for a run that is stored under its identifier as given and complete: verification of a stored completion cannot fail |
| `RetentionClass.RetentionStore.LegalHoldHistory` | tools/platform_policy/retention.py:515-524 | Returns the recorded history of a scope, or a refusal, and consumes the clock alone |
| `CiTheorems.LoadIsSafe` | tools/platform_policy/ci_contract.py:1256-1377 | In every interleaving, for every load that returns: the run it resolved was current at every moment from its first step to its last; `latest` named its generation at the closing look; and what it returns is the manifest and logs of one publisher whose generation the authority finalized for exactly that run |
| `CiLiveness.PublishReturnsIff` | tools/platform_policy/ci_runner.py:1171-1263 | From every reachable world with a free lock, whatever `latest` names, a publish call that meets no interference runs to its return if and only if its run is current and active, its content passes the readers' checks, its name is new and the authority does not refuse it; a lost reply is reconciled by two looks and does not stop it |
| `CiLiveness.PublishedIsLoaded` | tools/platform_policy/ci_runner.py:1171-1263 | From every reachable world with a free lock a new run can begin, publish authentic content under a new name, and have it loaded at once, exactly as published, if and only if its manifest is within the read limit, however many generations came before |
| `CiDirectory.LoadProvesItsResult` | tools/platform_policy/ci_contract.py:1256-1377 | Whatever anyone does to directory, pointer and authority between its eight steps, what a load returns is a manifest that describes the run current at its first, middle and last looks, within the limit and with its digest anchored, and exactly the logs its records name, each with its digest and within its limit |
| `CiDirectory.ReturnProvesItself` | tools/platform_policy/ci_runner.py:991-1030 | Whatever happens between its two closing looks, when a publish call returns its published run was current at the first, and at the second its digest was anchored and the pointer was its own |
| `CiDirectory.OvertakenGoesNowhere` | tools/platform_policy/ci_runner.py:1171-1263 | A publish call whose run is overtaken before its last look before the pointer renames no further generation and never moves the pointer, at any later moment of any interleaving |
| `CiTheorems.CurrentThroughout` | tools/platform_policy/ci_contract.py:1399-1409 | A run that is current at two moments was current at every moment between them: no ABA, because begun runs are fresh |
| `CiTheorems.RaisedLeavesNoPointer` | tools/platform_policy/ci_runner.py:1171-1263 | After a publish call raised before its finalization was confirmed, `latest` does not name its generation, then or later |
| `CiTheorems.PointerOnlyLeavesItsOwner` | tools/platform_policy/ci_runner.py:1160-1168 | In any world, `latest` changes only by a switch to the switching publisher's generation or by the raising publisher that owns it and was not confirmed |
| `CiTheorems.ReturnedMeansFinalized` | tools/platform_policy/ci_runner.py:991-1030 | A publish call returns only once the authority has finalized its generation under its manifest, whatever reply was lost, and `latest` named it at the closing look |
| `CiTheorems.ReturnedIsLoadable` | tools/platform_policy/ci_runner.py:1171-1263 | While the authority and the pointer stand as a returning publisher left them, a load of its run gives exactly its records and logs if its manifest is within the read limit, and raises otherwise |
| `CiTheorems.PlacedIsAuthentic` | tools/platform_policy/ci_runner.py:1308-1339 | Whatever generation a publisher put in place had passed the log, limit and authenticity checks that a reader repeats |
| `CiTheorems.ReadIsPublished` | tools/platform_policy/ci_contract.py:1256-1377 | Manifest and logs read at two moments belong to one generation of one publisher that the authority finalized |
| `CiSafety.StepKeeps` | tools/platform_policy/ci_runner.py:1171-1263 | Every step of the authority, of any publisher and of any reader keeps the invariant |
| `CiSafety.RunKeeps` | tools/platform_policy/ci_runner.py:1266-1305 | The invariant holds after every sequence of enabled steps |
| `CiSafety.AdvanceSound` | tools/platform_policy/ci_contract.py:1016-1096 | A begun, completed or finalized run appended to a context's log keeps all its values distinct |
| `CiSafety.SeenMeansCommitted` | tools/platform_policy/ci_runner.py:991-1030 | If the current run is the one this publisher published, its own finalization took effect, so reconciling a lost reply is sound |
| `CiSafety.FinalizeKeeps` | tools/platform_policy/ci_runner.py:972-988 | An accepted or lost finalization keeps the invariant |
| `CiLogs.LoadVerifiedLogs` | tools/platform_policy/ci_contract.py:1427-1451 | The loop succeeds exactly when the files are the exact log set of the records, each within its limit and matching its digest, all together within theirs, and each accepted by the scan and by its rederived count; it then returns exactly the files |
| `ReleaseFinalization.FinalizedVerifiesIff` | tools/platform_policy/release_contract.py:3013-3048 | An envelope that finalization returns verifies if and only if the trust names the finalizing signer's identities and its configured consumer: reference set, digest count, typed paths, epochs, signatures and roots all re-derive equal |
| `ReleaseFinalization.VerifiedReferencesAreExact` | tools/platform_policy/release_contract.py:2974-3010 | A verified envelope references exactly the typed evidence its receipt declares, no more and no less |
| `ReleaseFinalization.EveryReferenceVerifies` | tools/platform_policy/release_contract.py:2861-2888 | Every reference the finalizer signed verifies against the receipt it was made from |
| `ReleaseReferences.TypedAreDeclared` | tools/platform_policy/release_contract.py:1536-1554 | The two ways of collecting a receipt's digests, the typed list and the declared set, agree |
| `ReleaseReferences.EvidenceAgrees` | tools/platform_policy/release_contract.py:2891-2936 | The finalizer's list and the verifier's own collection hold the same evidence: each digest under the kind of the very field it stands in, and nothing else |
| `ReleaseReferences.ReferencesAreExpected` | tools/platform_policy/release_contract.py:2891-2936 | The references made from the manifest are, as tuples, exactly those the verifier derives on its own |
| `ReleaseReferences.ReferenceDigests` | tools/platform_policy/release_contract.py:2683-2792 | Made references carry each declared digest once, so their number is the number of declared digests |
| `ReleaseReferences.PlacesDiffer` | tools/platform_policy/release_contract.py:2683-2792 | With one attachment per path, distinct digests are referenced at distinct paths |
| `ReleaseAuthorization.AcceptedAtMostOnce` | tools/platform_policy/release_contract.py:3013-3048 | However often envelopes are bound and presented, under whatever trust, no nonce is accepted twice |
| `ReleaseIssuance.AcceptedWasIssued` | tools/platform_policy/release_contract.py:2839-2888 | Over every sequence of bindings and presentations, if whatever the verifiers of one identity take was issued by its signer, then every accepted envelope was issued for its very payload, every reference in it for its very claim, and its payload was bound before |
| `ReleaseIssuance.VerifiedWasIssued` | tools/platform_policy/release_contract.py:2839-2888 | An envelope or a reference that the signer did not issue does not verify |
| `ReleaseIssuance.VerifiedIff` | tools/platform_policy/release_contract.py:3013-3048 | An envelope verifies if and only if the trust names one signer and another consumer; it is that signer's for this payload, session and lease; every job passed, once; the roots stood still; the inputs are pinned; the shared checks hold; and there is one signed claim for each piece of evidence, for this release, and no other |
| `ReleaseSuccess.PreparesIff` | tools/platform_policy/release_contract.py:2182-2317 | A release is prepared for its signature if and only if issuer, writer, session and lease are the pinned ones; every job passed, once; both looks at the topology found the state the receipt names; the inputs are the files read; the files found are the attachments; the evidence is attached, named once and signed; and the shared checks hold |
| `ReleaseSuccess.FinalizesIff` | tools/platform_policy/release_contract.py:2182-2317 | A prepared release yields an envelope exactly when the signer answers for it; the envelope says this receipt, session, lease, instant and nonce and the roots of the second look |
| `ReleaseAuthorization.FinalizedIsAccepted` | tools/platform_policy/release_contract.py:2182-2317 | A finalized envelope whose nonce nobody else presented is accepted, after any other events |
| `ReleaseAuthorization.MakeReferences` | tools/platform_policy/release_contract.py:2683-2792 | The loop makes exactly the specified references, or is refused |
| `ReleaseAuthorization.AuthorizationAuthority.BindPayload` | tools/platform_policy/release_contract.py:2087-2102 | Adds exactly one grant |
| `ReleaseAuthorization.AuthorizationAuthority.Consume` | tools/platform_policy/release_contract.py:2062-2083 | Succeeds exactly for a bound grant with an unused nonce, and then uses it up |
| `ReleaseAuthorization.ReleaseFinalizer.FinalizeRelease` | tools/platform_policy/release_contract.py:2199-2317 | Returns exactly the specified envelope or is refused; every way out gives the snapshot lease back, and a payload is bound exactly when all its checks passed |
| `ReleaseAuthorization.VerifyEnvelope` | tools/platform_policy/release_contract.py:3013-3048 | Accepts exactly the envelopes that verify (see `ReleaseIssuance.VerifiedIff`) and whose grant and nonce are still there to consume, and consumes one nonce only then |
| `EvidenceWalk.VerifyAttachmentManifest` | tools/platform_policy/release_contract.py:1632-1674 | Passes exactly when the attachments list every file under the evidence root at its one path and nothing else, only files and directories are there, nothing is aliased, all files are clean and of distinct digests, and every declared digest is listed; returns the bytes of each listed file under its digest |
| `EvidenceWalk.EvidenceCollection.Collect` | tools/platform_policy/release_contract.py:1565-1629 | The recursive walk succeeds exactly when the confined walk does and no two files clash, and leaves behind exactly the files reached |
| `EvidenceWalk.DistinguishedIff` | tools/platform_policy/release_contract.py:1565-1629 | The running test for repeated digests is the statement that no two paths under the root hold bytes of one digest |
| `EvidenceWalk.EqualMeansMatches` | tools/platform_policy/release_contract.py:1632-1674 | Comparing the collected map with the declared one is the manifest condition finalization relies on |
| `TreeAcceptance.SucceedsIff` | tools/platform_policy/release_contract.py:898-953 | The walk ends on every finite graph and succeeds exactly when every included entry is sound on its own and no included directory, file or link has two included paths |
| `TreeAcceptance.CyclesAreRefused` | tools/platform_policy/release_contract.py:854-895 | A directory reachable from itself, at any depth, is refused |
| `TreeWalk.OnePathEach` | tools/platform_policy/release_contract.py:898-953 | A walk that succeeds reached each included directory, file and link by exactly one path |
| `TreeDigest.TreeIsTheGraph` | tools/platform_policy/release_contract.py:898-953 | What a successful walk includes at each path is the inode that path leads to, and nothing else |
| `TreeDigest.DigestNamesTheTree` | tools/platform_policy/release_contract.py:956-999 | Two trees with one digest show the same entries, modes, kinds and contents at every path, unless the digests of their streams collide |
| `TreeRecords.StreamInjective` | tools/platform_policy/release_contract.py:898-953 | Equal byte streams come from equal lists of (path, mode, kind, payload) records |
| `TreeRecords.ListingDetermined` | tools/platform_policy/release_contract.py:898-953 | Although nothing marks the end of a directory, the full relative paths determine the nesting |
| `TreeRecords.StreamDeterminesTheTree` | tools/platform_policy/release_contract.py:956-999 | Equal streams of two included trees mean equal trees |
| `TreeRecords.RecordRoundTrip` | tools/platform_policy/release_contract.py:898-953 | A record is read back from its bytes whatever follows them |
| `TreeRecords.JoinInjective` | tools/platform_policy/release_contract.py:898-953 | Joined relative paths determine their components |
| `TreeTraversal.Traversal.HashDirectory` | tools/platform_policy/release_contract.py:898-953 | The recursive method feeds the digest exactly the stream of what the walk includes, or refuses exactly when the walk does |
| `TreeTraversal.TreeSha` | tools/platform_policy/release_contract.py:956-999 | The digest is taken of exactly the stream of the included tree |
| `WireDecoding.ChunkedResponse` | apps/local/nipo_local/apiserver.py:369-456 | Whatever the application sends, in whatever order: a chunked response decodes to exactly the bodies up to the first final event, and no strict prefix of it decodes as complete; a response whose application failed before the final event never does |
| `WireDecoding.LengthResponse` | apps/local/nipo_local/apiserver.py:369-456 | Under a declared length the bytes after the head are the prefix of the bodies of length min(declared, total) |
| `WireDecoding.DecodeChunks` | apps/local/nipo_local/apiserver.py:434-447 | Written chunks decode to the concatenated bodies; empty bodies never end the message |
| `WireDecoding.StrictPrefixIsPartial` | apps/local/nipo_local/apiserver.py:449-456 | No strict prefix of a complete message is complete or malformed |
| `WireDecoding.HeadMirrorsGet` | apps/local/nipo_local/apiserver.py:363-365 | A HEAD request gets no content and the length its GET would get |
| `WireReply.ReplyIsTheResponse` | apps/local/nipo_local/apiserver.py:369-456 | A client that reads a whole response of this server by its own rules gets the status line, exactly the fields the application may say plus the one about content and the closing one, and the bodies up to the first final event, cut to a declared length; nothing about content under 1xx and 204, none for HEAD and 304; an application that failed or sent too little is visibly unfinished; nothing is left over. The kept fields must each fit on one line |
| `WireReply.RefusalIsAReply` | apps/local/nipo_local/apiserver.py:334-341 | The refusal sent for an application that never started is a whole reply with status 500 and its own length |
| `WireDeclared.DeclaredIff` | apps/local/nipo_local/apiserver.py:344-355 | An application declared a length exactly when the first of its fields so named, in whatever case, is that number in decimal digits with nothing but blanks around it |
| `WireDeclared.KeptIs` | apps/local/nipo_local/apiserver.py:304-331 | The application's fields reach the wire one by one, in order and unchanged, but for those named like one of the three reserved ones in whatever case |
| `WireReply.HeadReadsIff` | apps/local/nipo_local/apiserver.py:304-331 | A client reads back exactly the status line, the fields and the content after the head if and only if no kept name or value holds a line break, no kept name a colon, and no kept value begins or ends with a blank; the code checks none of these |
| `WireReply.LineBreakAddsAField` | apps/local/nipo_local/apiserver.py:304-331 | A value with a line break in it is read as two fields, the second a content length that contradicts the framing |
| `WireHead.HeadPromisesTheFraming` | apps/local/nipo_local/apiserver.py:304-355 | In the list of fields the head is made of, the content length read first is exactly the framing's, whatever lengths the application stated as fields of its own |
| `WireHead.HeadSaysChunkedIff` | apps/local/nipo_local/apiserver.py:304-331 | In the list of fields the head is made of there is a transfer coding exactly when the body is chunked |
| `Wire.ResponseIgnores` | apps/local/nipo_local/apiserver.py:390-396 | Messages before a start, repeated starts and bodies after the final one add nothing to the response |
| `Wire.Connection.Absorb` | apps/local/nipo_local/apiserver.py:390-396 | Keeps the bytes written equal to the response to the messages seen |
| `Wire.Connection.End` | apps/local/nipo_local/apiserver.py:449-456 | Closes the framing once, if it is still open |
| `Wire.Invoke` | apps/local/nipo_local/apiserver.py:616-651 | Writes exactly the response to what the application sent, or the fixed refusal if it never started one |
| `DeploymentContract.FieldsDetermineTheEnvelope` | tools/platform_policy/deployment_contract.py:426-449 | For any two accepted envelopes, equal flat field lists mean equal envelopes, although no list carries its length and the proofs are optional |
| `DeploymentContract.DigestNamesTheEnvelope` | tools/platform_policy/deployment_contract.py:360-396 | Two accepted envelopes state the same evidence digest exactly when they are equal, unless the digest collides |
| `DeploymentAcceptance.AcceptedIff` | tools/platform_policy/deployment_contract.py:360-396 | An envelope is accepted if and only if it is sealed for this contract, there is one observation of staging and then one of production, in each every required control is in force and every vector conclusively denied, in its session if live; the two run the same manifest, image and controls in different environments; and the outputs agree |
| `DeploymentAcceptance.AcceptedMeansParity` | tools/platform_policy/deployment_contract.py:360-396 | Of an accepted envelope: each required control is in force, and each required vector denied, in both environments, under one manifest, one image and one inventory of controls |
| `DeploymentContract.EnvelopeDetermined` | tools/platform_policy/deployment_contract.py:802-871 | What of validation is needed: two observations of the fixed shapes and equal checksum lists |
| `DeploymentCapture.ComparisonIsNeeded` | tools/platform_policy/deployment_contract.py:791-799 | Without the comparison of the two checksum lists the flat list is ambiguous: two different envelopes with valid lists and equal fields |
| `DeploymentCapture.LiveObservationIsTheCapture` | tools/platform_policy/deployment_contract.py:603-645 | An accepted live observation is exactly the conversion of the capture whose proof it carries, unless one of two digests collides |
| `DeploymentCapture.ConvertedCaptureIsBound` | tools/platform_policy/deployment_contract.py:292-336 | A capture converts exactly when every probe was denied, and then meets the record binding |
| `DeploymentCapture.SignedPayloadNamesTheCapture` | tools/platform_policy/deployment_capture.py:566-599 | Two captures with the same signed bytes are equal in every proof field, resource and probe but for the signature, unless a record digest collides |
| `LengthFraming.FramedInjective` | tools/platform_policy/deployment_capture.py:602-606 | Equal length-framed bytes come from equal lists of texts |
| `LengthFraming.UnframesFrames` | tools/platform_policy/deployment_capture.py:602-606 | Framed fields are read back, whatever their contents |
| `LengthFraming.CodeIsShortest` | tools/platform_policy/deployment_capture.py:602-606 | The code of a character is the shortest of UTF-8, and only its first byte is not a continuation (section 3 of RFC 3629) |
| `LengthFraming.PlainTextIsItsCode` | tools/platform_policy/deployment_capture.py:602-606 | Text of seven-bit characters is its own code |
| `DeploymentDigest.DigestFields` | tools/platform_policy/deployment_contract.py:888-894 | The loop's digest is that of the framed fields, and fails exactly when a field is too long for its prefix |
| `DeploymentDigest.CanonicalEvidenceSha` | tools/platform_policy/deployment_contract.py:426-449 | The accumulating loops digest exactly the specified field list |
| `CaptureText.ResourcesRoundTripIff` | tools/platform_policy/deployment_capture.py:730-758 | Written resource records are read back exactly when every field can stand between separators, every graph is a digest and every source is the digest of its own line |
| `CaptureText.ProbesRoundTripIff` | tools/platform_policy/deployment_capture.py:761-803 | The same for probe records |
| `CaptureText.SectionRoundTripIff` | tools/platform_policy/deployment_capture.py:806-819 | A section survives exactly when each of its records does on its own: no record can break another's line |
| `CaptureText.ParseResources` | tools/platform_policy/deployment_capture.py:730-758 | The loop reads exactly the specified records, or fails |
| `CaptureText.ParseProbes` | tools/platform_policy/deployment_capture.py:761-803 | The loop reads exactly the specified records, or fails |
| `YamlPrint.RoundTrip` | tools/platform_policy/workflow_yaml_parser.py:53-176 | Tokenizing and parsing any rendering of a value returns that value, whatever style (bare, single-quoted, double-quoted, block) is chosen for each scalar among those that can say it, and whichever marker opens each block: nested mappings, sequences of scalars or mappings |
| `YamlStyles.FieldReadsIff` | tools/platform_policy/workflow_yaml_parser.py:70-189 | Behind a key, bare, single-quoted, double-quoted and block writing each parse to that very scalar if and only if the text fits: bare text on one line, not refused, without blanks at its ends, not looking quoted and not opening a block; quoted text on one line and not refused; block text some line of which is not indented |
| `YamlStyles.ItemReadsIff` | tools/platform_policy/workflow_yaml_parser.py:91-189 | Behind a dash the same, with no colon, bare text not empty, and no block |
| `YamlRange.RangeIff` | tools/platform_policy/workflow_yaml_parser.py:53-121 | The subset is exactly the range of the parser: a mapping is in it if and only if some text parses to it |
| `YamlRange.ParsingIsStable` | tools/platform_policy/workflow_yaml_parser.py:57-63 | Printing what was parsed in the canonical styles and parsing it again changes nothing |
| `YamlPlain.PlainRoundTripIff` | tools/platform_policy/workflow_yaml_parser.py:91-121 | A rendering without guard comments reads back if and only if no sequence item with further fields starts with a scalar written as a block, whose tokens would swallow them |
| `YamlPlain.PlainTokens` | tools/platform_policy/workflow_yaml_parser.py:140-176 | Which rendered lines are swallowed by a block scalar: all come back exactly when none is at risk, and otherwise fewer do |
| `YamlPrint.PrintedLinesRead` | tools/platform_policy/workflow_yaml_parser.py:140-176 | Printed tokens, block scalars included, are tokenized back |
| `YamlRoundTrip.TokensParse` | tools/platform_policy/workflow_yaml_parser.py:57-63 | The tokens of a value parse to it |
| `YamlRoundTrip.FieldsParse` | tools/platform_policy/workflow_yaml_parser.py:70-89 | Whatever follows the fields of a mapping, the parser reads exactly them and stops there |
| `YamlRoundTrip.ItemsParse` | tools/platform_policy/workflow_yaml_parser.py:91-121 | The same for the items of a sequence |
| `YamlRange.ParsedIsGood` | tools/platform_policy/workflow_yaml_parser.py:53-121 | Whatever is parsed has distinct keys, one-line plain scalars and only the allowed nesting |
| `YamlMachine.Tokenize` | tools/platform_policy/workflow_yaml_parser.py:140-176 | The loop over lines gives exactly the specified tokens |
| `YamlMachine.WorkflowParser.ParseMapping` | tools/platform_policy/workflow_yaml_parser.py:70-89 | The loop and its recursion agree with the specification on value and position |
| `YamlMachine.WorkflowParser.ParseSequence` | tools/platform_policy/workflow_yaml_parser.py:91-121 | The loop and its recursion agree with the specification on value and position |
| `YamlMachine.WorkflowParser.ParseNode` | tools/platform_policy/workflow_yaml_parser.py:65-68 | Agrees with the specification on value and position |
| `YamlMachine.ParseYamlMapping` | tools/platform_policy/workflow_yaml_parser.py:124-126 | From text to value, exactly the specified parse |
| `SecurityEvidence.ProducedIsAcceptedIff` | tools/platform_policy/ci_contract.py:708-790 | The consumer accepts the producer's successful output if and only if the catalog lists exactly the run cases and their threats, there is one at least, and no case or threat comes twice; it then returns one mapping per threat with the produced evidence roots |
| `SecurityEvidence.CountIsRederived` | tools/platform_policy/ci_contract.py:1670-1726 | Whatever unmarked lines are appended, the count rederived from the log is the number of cases run if and only if there is one at least and no case or threat comes twice |
| `SecurityEvidence.RunSecurityGate` | tools/platform_policy/security_gate.py:412-486 | Succeeds exactly when every case passed; writes the records of the cases before the first failure and then either the complaint about that one or, after a success, the mappings |
| `RequirementMarkers.AppendedAreRecovered` | tools/platform_policy/ci_contract.py:394-429 | Records appended after any child output free of the reserved prefix are recovered exactly and in order |
| `RequirementMarkers.AppendedVerifiesIff` | tools/platform_policy/ci_contract.py:394-429 | Such a log passes its check exactly when the parent observed every bound case, one each, in order |
| `RequirementMarkers.ForgedRecordIsSeen` | tools/platform_policy/ci_runner.py:267-276 | A child that printed a record would have it counted, and the ownership check refuses exactly that |
| `RequirementMarkers.CountOfAppended` | tools/platform_policy/ci_runner.py:1553-1567 | The count a pattern makes over a whole log is the sum of its counts over the child output and over the appended records on their own |
| `RequirementMarkers.CountIsRederivedIff` | tools/platform_policy/ci_runner.py:452-584 | The count taken from the child output at execution equals the one rederived from the stored log if and only if the appended records, read as a log of their own, count nothing |
| `RequirementCounts.NameIsCounted` | tools/platform_policy/ci_contract.py:301-332 | For every n, a record whose text holds " n passed " after nothing blank adds at least n to the rederived count and nothing to the one taken at execution; a bound name may hold such text |
| `RequirementCounts.PassedLineCounts` | tools/platform_policy/ci_runner.py:1553-1567 | Over the whole pattern list, a log that says once, after a blank or at its start, that n passed, and holds neither of the other two words, counts exactly n; whatever else it says |
| `RequirementCounts.RanLineCounts` | tools/platform_policy/ci_runner.py:1553-1567 | The same for a log that says once that n tests, or n test, were run |
| `RequirementCounts.ChecksLineCounts` | tools/platform_policy/ci_runner.py:1553-1567 | The same for a log that says once how many checks were executed |
| `RequirementCounts.SummariesAddUp` | tools/platform_policy/ci_runner.py:1553-1567 | A log of summary lines of any of the three runners counts the sum of the numbers they state, for every list of numbers |
| `RequirementCounts.LinesAddUp` | tools/platform_policy/ci_runner.py:1553-1567 | What follows a finished line is counted on its own, unless the line ends in the word of a count |
| `RequirementCounts.BreakIsConsumed` | tools/platform_policy/ci_runner.py:1553-1567 | If the line does end in that word, its line break belongs to the match and a count that starts the next line is not seen: of m and n, only m is counted |
| `RequirementMarkers.PytestPatternsSkipRecords` | tools/platform_policy/ci_runner.py:1553-1567 | No pattern in use can begin to match where a record begins |
| `RequirementMarkers.CountAppended` | tools/platform_policy/ci_runner.py:1553-1567 | Across the end of a line counts add up, when no match begins right after it |
| `RequirementMarkers.PytestPatternsArePlain` | tools/platform_policy/ci_runner.py:1553-1567 | The patterns in use are of the kind these counts are proved for |
| `EvidenceText.LinesJoin` | tools/platform_policy/ci_contract.py:394-429 | The lines of two joined logs are those of each when the first ends a line |
| `CatalogRechain.RechainIsIdempotent` | tools/platform_policy/ci_rechain.py:302-313 | After one success, re-chaining the written document over unchanged sources with nothing supplied gives the same document, nothing added and nothing removed |
| `CatalogSuccess.RechainsIff` | tools/platform_policy/ci_rechain.py:302-313 | Re-chaining succeeds if and only if the document can be read (each surviving job whole, sound and listed once), there is one command for each job of the vocabulary, each job is described once, by its entry or by what was supplied, the requirements can be read, and commands, metadata and trusted list are fit for a catalog |
| `CatalogSuccess.RechainBuilds` | tools/platform_policy/ci_rechain.py:256-289 | A success builds, for each command in order, one job with that command's name, arguments, kind and inventory, no requirement and its own metadata; keeps the document's identities, evidence and contracts; and reports as added the jobs without an entry and as removed the other names, as often as they were listed |
| `CatalogSuccess.RootsCoverTheCatalog` | tools/platform_policy/ci_rechain.py:256-289 | The source root of what a success builds is the digest of everything the catalog holds but its roots, the catalog root that of the same and the source root |
| `CatalogRechain.SuppliedIsConsumed` | tools/platform_policy/ci_rechain.py:223-253 | A success consumed exactly the supplied metadata, namely that of the jobs the prior catalog lacked; its jobs are the whole vocabulary and both self-referential roots check |
| `CatalogRechain.PriorOfWritten` | tools/platform_policy/ci_rechain.py:131-152 | Reading back written jobs gives each its own metadata and reports nothing removed |
| `CatalogRechain.RootsOfComplete` | tools/platform_policy/ci_rechain.py:256-289 | Both self-referential roots of a built catalog check whatever is in it, so they never refuse one |
| `CatalogRechain.ReadPriorJobs` | tools/platform_policy/ci_rechain.py:131-152 | The popping loop returns exactly the specified prior jobs, or fails |
| `CatalogRechain.BuildCatalogJobs` | tools/platform_policy/ci_rechain.py:223-253 | The popping loop succeeds exactly when every job has metadata and no supplied one is left over |
| `TurnPinning.TurnsNeverMix` | apps/local/nipo_local/api.py:2279-2297 | In every interleaving of turn requests all turns of a Run carry the provider and model of its first |
| `TurnPinning.RefusedBeforeAnyCall` | apps/local/nipo_local/api.py:2279-2297 | A request refused for its selection never called a provider, and no request calls one twice |
| `TurnPinning.NoCallIsWasted` | apps/local/nipo_local/api.py:2300-2381 | A turn that was generated is discarded at the store only if the client reported another selection than the one parsed |
| `TurnOutcomes.EveryOutcomeWasEarned` | apps/local/nipo_local/api.py:2279-2381 | In every interleaving each request went exactly the way its outcome says: not found, malformed, locked out, unavailable, failed, answered by another model, discarded or recorded; a turn is recorded only for a request that was found, checked, available and answered under the very model it asked for |
| `TurnOutcomes.TurnsAreAnswers` | apps/local/nipo_local/store.py:2933-3016 | In every interleaving the turns of a Run are those it had and one more for each request that recorded one, each being the very answer that request was given: none is lost, repeated or made up |
| `TurnPinning.RecordableIff` | apps/local/nipo_local/api.py:2279-2381 | A request that has just arrived at a free lock can still get a turn recorded in some continuation, whatever the other requests do, if and only if its model is well formed and the Run has no turn yet or its first turn is the very selection asked for |
| `TurnPinning.RunOpenIff` | apps/local/nipo_local/api.py:2267-2276 | Given such a request for the first turn's model, some continuation records another turn on the Run if and only if it has none or its first is labelled with the provider its model names |
| `TurnPinning.MislabelHappens` | apps/local/nipo_local/store.py:2933-3016 | A reachable world in which a client reported another provider than its model names, and from which no continuation records a turn on that Run |
| `TurnPinning.NeverStuck` | apps/local/nipo_local/api.py:542-551 | While a request is unfinished some request can move: striped locks cannot deadlock |
| `TurnPinning.MislabelledRunIsClosed` | apps/local/nipo_local/store.py:2933-3016 | A Run whose first turn carries a selection no request can ask for gets no further turn, ever |

## Left out

- SHA-256, HMAC, Ed25519, base64, JSON and Pydantic: arbitrary functions, with the one law each use relies on.
- Clocks, random challenges, nonces, restore epochs and authority answers are parameters of the operations; time zones and the rendering of instants are an injective function.
- Retention: underflow of dates before year 1, and checks of record constructors that no caller in the store can trip; audit texts are values that name their event and its particulars.
- Retention: the lock around each operation is taken for granted, so an operation is one step.
- CI: the execution of jobs, their leases and attestations; what a reader checks of them is one predicate of the manifest and its logs, the same for publisher and reader.
- CI: system calls, fsync, inode and lock-file checks are atomic steps; one evidence root; deletion of staging directories.
- CI: the exits of `run_ci` outside its `try` blocks (`ci_runner.py:872-874`), so nothing is claimed of how a run ends then; `archive_legacy_ci_latest` and task attempt bundles.
- CI: a finalization of the same run by a publisher with another evidence root; a finalization and its reply are one step, so one that takes effect only after its caller stopped reconciling is not a step.
- Release: freshness of timestamps, epochs, seals, human reviews, NFR thresholds, control logs and catalogs are predicates that finalizer and verifier share; `detail` stands for every receipt field that only they read.
- Release: the lease is given back on every exit, but a crash between binding and returning is not a step.
- Trees and evidence: the graph stands still during a walk, so the repeated stat and listing checks are not modelled; listings come in sorted order; which paths are excluded is any predicate of the path.
- Trees: a text in a path that UTF-8 cannot encode (a lone surrogate) does not exist here; in the source encoding it raises.
- Wire: reading requests, timeouts and connection handling; the text of a status line, of which only that it is one line is used.
- Deployment: which violation is reported first, and its message; the attribute schema of a control's spec is a predicate of the spec.
- Deployment: running the collector, splitting its output into sections and its metadata lines; that the parser seals the digests of the records it read is the stated hypothesis `Sealed`.
- Deployment: the release qualification authority, which consumes a challenge once as the release one does a nonce.
- YAML: the message and path of an error; every failure is one value.
- SECURITY: binding a case to the syntax tree of its test, sanitizing and bounding child output, process control; a case's outcome and output are inputs.
- Requirement records: the regular expression engine; only patterns of the shape used for counts are modelled, by position, over characters of a byte each, with ASCII digits and blanks where the source matches decoded text.
- Re-chaining: reading and replacing the file; fields of a job that re-chaining copies unread are one value; the order of a sorted listing of names.
- Turns: availability of a provider, streaming, scopes and the rest of the record; the lock table is a function from Runs to stripes.
- Not modelled at all, because they are wiring or flat lists of checks: the remote authority client, the CLI entry points, `ci_validation.py`, the specification and architecture verifiers, workflow policy checks, observability and quarantine scans, the rest of `api.py`.
