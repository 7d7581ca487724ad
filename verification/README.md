# Verified model of the NDN operator

A Dafny model of the decisions that the operator takes over shared state, with proofs of what those
decisions guarantee. `dafny verify dfyconfig.toml` checks everything.

**Certificates.** `CertificateWorld` is the certificate controller as a machine: many Certificates and
ExternalCertificates that name each other as issuers, a Secret store, a clock, and passes in flight that make one API
call per step, so passes interleave and can stop between the Secret write and the status patch. `CertificateSafety`
proves one invariant over all runs; `CertificateTheorems`, `CertificateTiming`, `CertificateRounds`, `CertificatePublished`
(what a published status tells its reader), `CertificateProvenance` (where a stored signer.cert came from),
`ExternalProvenance` (what an ExternalCertificate's status reports, and of when) and `CertificateWakeUp` (what the
controller's own schedule amounts to) draw the conclusions. `ConditionTexts` fixes the words of the conditions.
`CertificateController` is the code statement by statement on a mutable store. Its
`Reconcile` equals the function `WholePass`, which `CertificateProgress` proves to be the run of its own single steps.

**Mesh.** `MeshWorld` is the router and neighbor controllers as a machine over the routers' statuses. A pass is what it
saw of its own object plus the routers still to patch, and each patch is one step. Routers and Neighbors run the same
protocol on two different maps, so both are an `Owner`. `MeshSafety` holds the invariant, `MeshTheorems` the safety
results, `MeshConvergence` the full mesh, `MeshProvenance` where published conditions come from, `MeshPasses` whole
passes as runs of their steps, `MeshController` the code, `MeshPatches` the patches as JSON documents, `Sidecar` the
watch loop that turns the maps into links.

**Conditions, injector, text.** `Conditions` is the keyed condition list. `JsonPatch` is JSON Patch (RFC 6902 sections 4.1
to 4.3), JSON Pointer (RFC 6901 sections 3 and 4) and JSON Merge Patch (RFC 7396 section 2). `Injector` builds the pod
patch and relates it to a direct rewrite, `InjectedPod` reads off what the containers then find; `CredentialRef` and
`CredentialResolution` get from annotations to Secrets.
`HeaderText` and `Text` are the header parsers. `CertificateTypes`, `MeshTypes` and `Wrappers` hold the data.

Runs are sequences of actions, and an action that is not enabled changes nothing, so a statement about "every run" is one
about every sequence. Clock readings, list orders and the time between two readings are parameters of the actions.
Aux fields (`log`, `used`, `published`) record history and are never read by a step of the operator.

## Assumptions

- Passes on one object never overlap, because the controller runs one replica; a pass starts from the object's current status.
- Specs, labels, issuer references and a Neighbor's network do not change during a run, and names are not reused. The uid
  comparison that detects self-signing (src/cert_controller/reconcile.rs:179-180) is therefore a comparison of names.
- Issuers are in the namespace of the Certificate. The code reads the issuer's status in the issuer's namespace
  but its Secrets in its own (src/cert_controller/reconcile.rs:159-166 against 285-288).
- Users do not write the Secrets whose names the controller derives from a Certificate. What they write into their own
  Secrets, and when, is up to them.
- `ndnd` makes fresh keys and signs with the start and end it is given, cut to whole seconds.

## Where the code differs from its evident intent

The model follows the code.

- The requeue after a validating pass is set to expiry, not to the start of the renewal window
  (src/cert_controller/reconcile.rs:67-70). `LostReachable` is a run in which every pass is punctual and the certificate
  is lost; `RenewedIffCaught` says exactly when it is renewed; `AbsorbingRun` says that what is lost stays lost.
- Of an ExternalCertificate the signer's key and certificate are read from the user's Secret by two API calls that are
  never compared (src/cert_controller/reconcile.rs:285-289 and 314-325, src/ext_cert_controller/reconcile.rs:51-88). The
  stored signer.cert can therefore be for another key than the one that signed: `MismatchedSecretFails` and `RotationFails`
  are the two failing inputs, `ExternalSealIff` the exact condition, `MatchingWritesSeal` what users have to keep to.
- An ExternalCertificate's pass asks for no later one (src/ext_cert_controller/reconcile.rs:104), so its status goes on
  saying valid after the certificate has ended: `StaleReachable`, `ValidityStays`. What it says is as of its last pass
  (`PublishedIsReported`), and `UsableExternalWasValid` is what the injector may conclude from it.
- A key Secret created just before a crash makes every later pass conflict (src/cert_controller/reconcile.rs:393-396):
  `OrphanReachable`, `OrphanedPassFails`, `OrphanOnlyFromCrash`, `AbsorbingRun`, and the condition in `RoundsIssueExactly`.
- Neighbor cleanup removes without looking, despite its comment (src/neighbor_controller/neighbor.rs:98-103):
  `NeighborCleanupSucceedsIff`, `LateRouterBlocks` and `BlockedForGood`.
- The `_working` status with Issuing=True is never published (src/cert_controller/reconcile.rs:39-61): the code in
  `Cluster.NextStatus` builds it, and `WorkingIsNeverPublished` and `Cluster.Reconcile` show that it is dropped.
- `renewBefore` is documented as 24 hours by default (src/cert_controller/types.rs:37) and is 7 days
  (src/cert_controller/reconcile.rs:113-119).
- NeighborsSynced is documented as the last propagation having succeeded (charts/ndn-operator/templates/crd/router.yaml:79)
  and is also True for an online router without a face, which has told nobody (src/router_controller/router.rs:200-285):
  `PublishedWasEarned` says exactly when.
- A router's pass starts from no conditions (src/router_controller/router.rs:105), so no transition time survives a
  pass: `MeshTypes.PublishedConditions`.

## Model

| member | source | states |
|---|---|---|
| Conditions.Holder.UpsertCondition | src/conditions.rs:59-81 | the in-place upsert on the optional vector gives exactly the upserted list |
| Conditions.Holder.UpsertBool | src/conditions.rs:10-26 | builds the condition from the flag and upserts it |
| Conditions.Holder.ClearConditions | src/conditions.rs:29-31 | afterwards there is no list |
| Conditions.FlagAfterUpsert | src/conditions.rs:59-81 | an upsert sets the flag of its own type and leaves the flag of every other type alone |
| Conditions.FirstSeenIsExact | src/conditions.rs:59-81 | the reference order has each type that occurs in the history once, and no other |
| Conditions.ReferenceStep | src/conditions.rs:59-81 | one upsert on the vector is one more entry in the history of the reference map |
| Conditions.ReplayRefinesHistory | src/conditions.rs:10-81 | after any history of upserts and clears the vector is the map with history: one entry per type in first-seen order, latest fields, transition time of the first call in the trailing block of equal statuses |
| CertificateTypes.RenderIsInjective | src/cert_controller/reconcile.rs:323-324 | derived Secret names of keys and certificates of different Certificates never coincide |
| CertificateController.SetAvailabilityConditions | src/cert_controller/reconcile.rs:451-503 | KeyReady, CertReady and Ready are upserted from the flags, in this order, with the message that lists what is missing |
| CertificateController.ValidateCert | src/cert_controller/reconcile.rs:125-145 | valid iff the end lies after now, renewal iff end minus renewBefore is reached; fails exactly without an end or with a renewBefore out of range |
| CertificateController.RecordCert | src/cert_controller/reconcile.rs:353-378 | after issuance the status names the certificate, its signer's key, both dates and its Secret, is valid and not flagged, and has RenewalRequired, the availability conditions and Issuing=False upserted in this order; the key's fields stay |
| CertificateController.Cluster.KeyFromSecret | src/cert_controller/reconcile.rs:514-535 | reading a key fails exactly when the Secret or its entry is missing |
| CertificateController.Cluster.CreateKey | src/cert_controller/reconcile.rs:381-423 | a fresh key is stored under the derived name and recorded; conflict, and no change, if that Secret exists |
| CertificateController.Cluster.ResolveIssuerOf | src/cert_controller/reconcile.rs:153-283 | succeeds exactly when the issuer is there with a status; then IssuerReady is True exactly when that status has a key Secret and, for a Certificate other than itself, a certificate Secret; the pass goes on, with those Secrets, exactly then; nothing else in the status changes; and which error it is otherwise |
| CertificateController.Cluster.SignAndStore | src/cert_controller/reconcile.rs:285-378 | reads both keys, signs, stores certificate and signer's certificate, and the status recorded |
| CertificateController.Cluster.Revalidate | src/cert_controller/reconcile.rs:62-75 | the branch with key and certificate: validated status, next pass at expiry, failure after expiry |
| CertificateController.Cluster.CreateCert | src/cert_controller/reconcile.rs:147-379 | issuance as a whole: a status without a certificate while the issuer is not ready, or a stored certificate and its status, or an error |
| CertificateController.Cluster.WorkingCopy | src/cert_controller/reconcile.rs:39-49 | the working copy starts from the current conditions with RenewalRequired surfaced |
| CertificateController.Cluster.NextStatus | src/cert_controller/reconcile.rs:51-86 | the status to publish is the whole pass's, the delay is until expiry or five seconds, and the working copy ends with Issuing=True when a certificate is to be made |
| CertificateController.Cluster.PatchStatus | src/cert_controller/reconcile.rs:88-95 | the patch writes the status and nothing else |
| CertificateController.PatchedDiffers | src/cert_controller/reconcile.rs:51-95 | no pass turns Issuing to True in what it publishes |
| CertificateController.Cluster.Reconcile | src/cert_controller/reconcile.rs:28-98 | the code of a pass changes the store exactly as the whole pass of the machine, returns the delay until the next, and publishes another list of conditions than its working copy whenever that says Issuing is True |
| CertificateController.Cluster.ReconcileExternal | src/ext_cert_controller/reconcile.rs:25-105 | fails without the Secret and then changes nothing; otherwise valid, CertReady and Ready say exactly that the Secret holds a certificate that ends after now, cert_exists and key_exists what it holds, and the recorded name, signer, dates and Secrets are those found |
| CertificateProgress.WholePassIsRun | src/cert_controller/reconcile.rs:28-98 | a pass that nothing interrupts is the run of its single API calls |
| CertificateSafety.BeginOk | src/cert_controller/reconcile.rs:52-95 | whatever the first call of a pass writes fits the invariant |
| CertificateSafety.ContinueOk | src/cert_controller/reconcile.rs:147-379 | so does every later call of a pass, whatever other steps came in between |
| CertificateSafety.SignerCertOk | src/cert_controller/reconcile.rs:314-338 | the certificate of a Certificate issuer, by the time it is read for storing, certifies the key that has just signed |
| CertificateSafety.StepInv | src/cert_controller/reconcile.rs:28-423 | every step of every object keeps the invariant, and what is recorded only grows |
| CertificateSafety.RunInv | src/cert_controller/reconcile.rs:28-423 | the invariant holds over every run |
| CertificateTheorems.StoredCertificatesMatchKeys | src/cert_controller/reconcile.rs:285-338 | in every reachable world a stored ndn.cert certifies the Certificate's own stored key; if its issuer is a Certificate it was signed by that issuer's key and signer.cert certifies that key |
| CertificateTheorems.RecordedMeansStored | src/cert_controller/reconcile.rs:341-362 | no status claims a key or certificate that is not stored |
| CertificateTheorems.KeysWrittenOnce | src/cert_controller/reconcile.rs:387-396 | a key Secret, once there, is the same in every later world, and no two Certificates have the same key |
| CertificateProvenance.RunTraced | src/cert_controller/reconcile.rs:285-325 | over every run, each signer's key and certificate that a pass with an external issuer carries or has stored was read from the issuer's Secret by steps of that same pass |
| CertificateProvenance.ExternalSealIff | src/cert_controller/reconcile.rs:285-325 | for an external issuer, in any run, the stored signer.cert certifies the signing key if and only if the key found at the pass's first read is that of the certificate found at its second |
| CertificateProvenance.MatchingWritesSeal | src/ext_cert_controller/reconcile.rs:51-88 | it does so whenever users only ever write one key and certificates for it into that Secret |
| CertificateProvenance.OperatorSecretIsOneSided | src/cert_controller/reconcile.rs:323-333 | an ExternalCertificate on one of the operator's own Secrets finds a key or a certificate there, never both |
| CertificateProvenance.MismatchedSecretFails | src/ext_cert_controller/reconcile.rs:51-88 | a run from nothing with a Secret whose key and certificate do not match ends with a signer.cert that is not for the signing key |
| CertificateProvenance.RotationFails | src/cert_controller/reconcile.rs:285-325 | and so does one in which a matching pair is rotated to another between the two reads |
| CertificateTheorems.SelfSignedSignerCert | src/cert_controller/reconcile.rs:314-325 | a self-signed Certificate stores its own first certificate as signer.cert, and on renewal the certificate it had until then |
| CertificateTheorems.IssuedHasChain | src/cert_controller/reconcile.rs:156-283 | every certificate stored in any run has a finite chain of recorded issuers that ends at a self-signed Certificate or an ExternalCertificate |
| CertificateTheorems.ChainExcludesCycle | src/cert_controller/reconcile.rs:179-182 | a finite chain excludes any issuer cycle of two or more |
| CertificateTheorems.CyclesNeverIssued | src/cert_controller/reconcile.rs:156-283 | no Certificate on, or leading into, an issuer cycle of two or more is ever issued in any run |
| CertificateTheorems.PublishedConditionsAgree | src/cert_controller/reconcile.rs:451-503 | in every reachable world Ready and RenewalRequired agree with the flags, Issuing is never True, and an ExternalCertificate's Ready equals its CertReady |
| CertificatePublished.ResolveShowsIssuer | src/cert_controller/reconcile.rs:153-283 | the same of the machine's resolution of an issuer, in every world |
| CertificatePublished.ConditionsAreExact | src/cert_controller/reconcile.rs:451-503 | in every reachable world KeyReady, CertReady, Ready, RenewalRequired and Issuing of a Certificate are absent before the key or certificate exists and exact from then on |
| CertificatePublished.IssuerReadyIsTrue | src/cert_controller/reconcile.rs:179-198 | in every run a Certificate that was issued by a Certificate says IssuerReady, and whenever it says so its issuer is recorded as able to sign |
| CertificatePublished.PublishedIsStored | src/cert_controller/reconcile.rs:340-362 | the status patch of an issuing pass publishes, in any run, the name, signer, dates and Secret of the certificate that is stored, as valid and not due for renewal |
| CertificatePublished.StatusAgreesWithStore | src/cert_controller/reconcile.rs:320-379 | unless a pass on the Certificate crashes, its status and the store agree between its passes in every run: each Secret is there if and only if the status says so, and every field about the certificate is that of the stored one |
| CertificatePublished.SigningDates | src/cert_controller/reconcile.rs:290-311 | a signature's dates are whole seconds, the start within the second of the first clock reading, the end within that of the second reading plus the validity period |
| CertificatePublished.Periods | src/cert_controller/reconcile.rs:292-308 | 30 days of validity and 7 days before the end unless the spec says otherwise; out of range, the validity is zero and the time before the end an error (lines 113-122) |
| ConditionTexts.AvailabilityReads | src/cert_controller/reconcile.rs:451-503 | status, reason, message, generation and transition time of KeyReady, CertReady and Ready, and no other entry changes |
| ConditionTexts.RenewalReads | src/cert_controller/reconcile.rs:132-143 | the same of RenewalRequired |
| ConditionTexts.IssuerReads | src/cert_controller/reconcile.rs:183-198 | the same of IssuerReady, for both kinds of issuers |
| ConditionTexts.ExternalReads | src/ext_cert_controller/reconcile.rs:120-166 | the same of an ExternalCertificate's three conditions, Ready without regard to the key |
| ExternalProvenance.ObservedReports | src/ext_cert_controller/reconcile.rs:51-95 | what a status computed from a Secret says: valid iff its certificate ends later, each flag and field, and what stays when an entry is missing |
| ExternalProvenance.PublishedIsReported | src/ext_cert_controller/reconcile.rs:25-105 | whatever an ExternalCertificate publishes in any run is such a report on the Secret and the time of one earlier step of that run |
| ExternalProvenance.ValidityStays | src/ext_cert_controller/reconcile.rs:104 | over any run in which no pass publishes, that status stays, however late it gets |
| ExternalProvenance.StaleReachable | src/ext_cert_controller/reconcile.rs:104 | five steps from nothing end with an ExternalCertificate published as valid after its end |
| CertificateTheorems.OrphanedPassFails | src/cert_controller/reconcile.rs:387-396 | a pass without a recorded key fails exactly when the key Secret is already there, and then changes nothing |
| CertificateTheorems.CrashOrphans | src/cert_controller/reconcile.rs:87-95 | a crash between creating the key Secret and patching the status gives that state |
| CertificateTheorems.OrphanReachable | src/cert_controller/reconcile.rs:87-95 | three steps from nothing reach it, for any Certificate |
| CertificateTheorems.OrphanOnlyFromCrash | src/cert_controller/reconcile.rs:87-95 | and no other step ever does |
| CertificateTheorems.WorkingIsNeverPublished | src/cert_controller/reconcile.rs:39-61 | the working copy of a pass that sets out to issue says Issuing is True, and in no run is it ever the published list |
| CertificateTheorems.LostPassFails | src/cert_controller/reconcile.rs:62-70 | a pass fails on a certificate that is not flagged for renewal and has expired, or whose renewBefore is out of range |
| CertificateTheorems.AbsorbingRun | src/cert_controller/reconcile.rs:52-95 | both states absorb every run: status, key and certificate stay as they are for ever |
| CertificateTheorems.ValidatingPass | src/cert_controller/reconcile.rs:62-75 | when a validating pass fails, and otherwise exactly what it publishes as valid and needs_renewal |
| CertificateWakeUp.ValidatingVisit | src/cert_controller/reconcile.rs:62-75 | a pass on an issued certificate flags renewal exactly in the window, and leaves it lost when it comes after expiry |
| CertificateWakeUp.RenewingVisit | src/cert_controller/reconcile.rs:52-61 | a pass on a flagged certificate with a ready issuer records one more issuance |
| CertificateWakeUp.RenewedIffCaught | src/cert_controller/reconcile.rs:62-75 | over runs of passes that start no earlier than asked for, with anything else in between, the certificate is issued again if and only if the first validation fell in the window or the wake-up at expiry is served at that instant; if not, no later run issues it |
| CertificateWakeUp.RenewalNeedsWindow | src/cert_controller/reconcile.rs:62-75 | in every interleaving, crashes of its own passes included, no second issuance is recorded unless a pass begins in the window |
| CertificateWakeUp.LostReachable | src/cert_controller/reconcile.rs:67-70 | a run from nothing in which every pass is punctual, the certificate is issued once, and then lost |
| CertificateTiming.RunTimed | src/cert_controller/reconcile.rs:113-145 | over every run the recorded end of validity is that of the last issuance and renewal is flagged only inside the window |
| CertificateTiming.RenewalIsLate | src/cert_controller/reconcile.rs:113-119 | a renewal allowed by the window comes at least the gap after the last issuance |
| CertificateTiming.IssuancesAreSpaced | src/cert_controller/reconcile.rs:296-312 | over any run N recorded issuances of one Certificate span at least (N-1) times renewInterval - renewBefore - 1 second |
| CertificateRounds.PassIssues | src/cert_controller/reconcile.rs:52-86 | a pass with a key and a ready issuer issues, and reissues once renewal is flagged |
| CertificateRounds.VisitMakesKey | src/cert_controller/reconcile.rs:381-423 | one pass gives every Certificate its key, unless the key Secret was orphaned |
| CertificateRounds.RoundWorks | src/cert_controller/reconcile.rs:52-95 | one round, in any order, gives keys to all and certificates to those whose issuer was ready |
| CertificateRounds.RoundsIssue | src/cert_controller/reconcile.rs:52-95 | k + 2 rounds issue every Certificate whose issuers reach a root within k links without an orphaned key |
| CertificateRounds.RoundsIssueExactly | src/cert_controller/reconcile.rs:387-413 | after k + 2 rounds it is issued if and only if no key on the way was orphaned before |
| HeaderText.FromKeyText | src/cert_controller/crypto.rs:15-33 | the line loop returns the last Name and SigType, or the first missing one as error |
| HeaderText.FromCertText | src/cert_controller/crypto.rs:53-92 | the line loop returns the last value of each header and the validity bounds, with the errors in order |
| HeaderText.LineReads | src/cert_controller/crypto.rs:58-68 | a line's header is what stands before its first colon, compared exactly, its value the rest, trimmed; a line without a colon has none |
| HeaderText.PrintedHeadersReadBack | src/cert_controller/crypto.rs:58-68 | any headers in any order before any colon-free body read back, the last of each name winning |
| HeaderText.KeyTextRoundTrip | src/cert_controller/crypto.rs:15-33 | a printed key text parses to the same fields, for unbounded bodies and values with colons |
| HeaderText.CertTextRoundTrip | src/cert_controller/crypto.rs:53-92 | the same for certificates, with both dates |
| HeaderText.KeyTextCases | src/cert_controller/crypto.rs:15-33 | a key text is refused exactly when it lacks the name, or else the signature type; otherwise the last line of each header gives the field |
| HeaderText.CertTextCases | src/cert_controller/crypto.rs:53-92 | each error of a certificate text exactly when: a period that does not parse first, then name, signature type and signer key; otherwise last lines give the fields, and the period the bounds or, without one in two parts, the time of parsing |
| HeaderText.UnsplitValidityIsNeverValid | src/ext_cert_controller/reconcile.rs:71-82 | a Validity that does not split into two parts leaves the parse time as both bounds, and the external controller then publishes the certificate as not valid and not ready |
| Text.SplitJoin | src/bin/injector.rs:232-240 | splitting a join gives the parts back when none holds the separator |
| Text.LinesUnlines | src/cert_controller/crypto.rs:18 | reading lines gives the written lines back, less a return at the end of one |
| Text.LinesWithReturns | src/cert_controller/crypto.rs:18 | lines that end with a return and a newline read like lines that end with a newline |
| Text.LinesUnfinished | src/cert_controller/crypto.rs:18 | text behind the last newline is one more line, and keeps a return at its end |
| CredentialRef.ReferenceRoundTrip | src/bin/injector.rs:165-184 | a printed reference parses back to itself if and only if its name is not empty, has no slash and does not end in white space |
| CredentialRef.AcceptedReferenceIsStable | src/bin/injector.rs:165-184 | whatever text was accepted, the reference prints and parses back to itself |
| CredentialRef.ReferenceCases | src/bin/injector.rs:165-184 | for every text which reference it is or which error: no slash, then a bad name, then an unknown kind |
| CredentialRef.FirstWrongItem | src/bin/injector.rs:229-242 | a list gives every item's reference in order, or the error of its first blank or wrong item |
| CredentialRef.ListRoundTrip | src/bin/injector.rs:229-242 | a comma-joined list parses back to itself if and only if every name is such and none holds a comma |
| CredentialRef.RequestRoundTrip | src/bin/injector.rs:208-252 | a request parses back from its annotations if and only if something is asked for, the container's name is trimmed and not empty, and every reference can be printed |
| CredentialRef.FirstErrorWins | src/bin/injector.rs:208-252 | there is no request exactly when none of the three annotations is there; otherwise the first that is wrong, of container, signing, trust anchors and chain, decides the error |
| CredentialResolution.Validate | src/bin/injector.rs:346-380 | accepted exactly with a valid certificate, its Secret and, when required, a private key Secret; each error exactly when the first of these is missing |
| CredentialResolution.ResolveList | src/bin/injector.rs:267-282 | succeeds exactly when each reference, in the world of its own read, is there with a status that records an existing valid certificate and its Secret; the Secrets recorded are returned in order; otherwise the error is that of the first reference that is not |
| CredentialResolution.ResolveRequest | src/bin/injector.rs:254-344 | the same for a whole request, read in the order signing, anchors, chain; the signing reference needs a recorded key Secret too, and its two Secrets are the recorded ones |
| CredentialResolution.ResolvedSigningPairMatches | src/bin/injector.rs:294-380 | in every run, a signing Certificate that resolves leads to two Secrets that hold, then and ever after, a key and a certificate for that key |
| CredentialResolution.ResolveMeans | src/bin/injector.rs:294-344 | a reference resolves exactly when its recorded status allows it to be used, to the recorded Secrets, and otherwise gives the first reason that it is not |
| CredentialResolution.UsableExternalWasValid | src/bin/injector.rs:318-344 | in every run, an ExternalCertificate that resolves had in the mounted Secret, at the time of an earlier pass, a certificate that had not ended, and to sign with also a key |
| JsonPatch.IndexRoundTrip | src/bin/injector.rs:486 | the index of a container, written in decimal, is read back as that index |
| JsonPatch.PointerRoundTrip | src/router_controller/router.rs:226-234 | a pointer written from any tokens names those tokens, tildes and slashes included |
| JsonPatch.ApplyAppend | src/bin/injector.rs:439-494 | applying one patch after another is applying the two in one, errors included |
| JsonPatch.AddNeedsParent | src/router_controller/router.rs:226-234 | adding a member needs the parent object only, and afterwards the path names the value |
| JsonPatch.TargetMustExist | src/neighbor_controller/neighbor.rs:99-105 | remove and replace are accepted exactly when the target exists |
| JsonPatch.EditFrame | src/router_controller/router.rs:226-234 | an edit leaves every path alone that branches off inside an object |
| Injector.ItemList.Retain | src/bin/injector.rs:601-614 | the loop drops exactly the entries of that name, in order |
| Injector.ItemList.Put | src/bin/injector.rs:601-614 | entries of the name are dropped, the others keep their order, the new one comes last |
| Injector.UpsertAllIs | src/bin/injector.rs:601-614 | upserting distinct names one by one keeps all other entries in order and appends the new ones in theirs |
| Injector.CollectVolumes | src/bin/injector.rs:413-437 | the volumes collected, or the error of a signing credential without key Secret |
| Injector.CollectMounts | src/bin/injector.rs:448-480 | the mounts collected for one container |
| Injector.CollectEnv | src/bin/injector.rs:450-481 | the variables collected for one container |
| Injector.ContainerStep | src/bin/injector.rs:484-492 | the two operations for container i take the rewritten pod one container further |
| Injector.BuildPatch | src/bin/injector.rs:389-495 | fails exactly with no spec, no target container or no key Secret, in this order; otherwise the patch applied to the pod's JSON is the JSON of the direct rewrite, for any number of containers |
| Injector.ReplacedLookup | src/bin/injector.rs:601-614 | in a rewritten list an injected name has its injected entries only, every other name what it had, and the rest keeps its order |
| Injector.OnlyTargetGains | src/bin/injector.rs:456-483 | every container but the first with the target name keeps exactly the credential mounts and variables it had |
| Injector.InjectIdempotent | src/bin/injector.rs:389-495 | injecting twice is injecting once, list order included |
| Injector.InjectKeepsWellFormed | src/bin/injector.rs:413-493 | unique names of volumes, variables and, container by container, mounts stay unique; mounts name declared volumes; every volume declared before still is, which is all that the untouched init containers need |
| Injector.BundleFilesDistinct | src/bin/injector.rs:541-552 | the files of a bundle have pairwise distinct paths |
| InjectedPod.SocketIsReachable | src/bin/injector.rs:448-452 | in every container NDN_PREFIX is the network's prefix, and NDN_CLIENT_TRANSPORT the URL of the path at which it sees the host's socket of that network |
| InjectedPod.SigningIsReadable | src/bin/injector.rs:456-468 | in the target container the two signing variables are paths of the two files of one read-only volume: the key and the certificate asked for |
| InjectedPod.AnchorsAreReadable | src/bin/injector.rs:469-474 | the trust anchor directory holds exactly the anchors, file anchor-k.cert being the k-th, read-only |
| InjectedPod.ChainIsReadable | src/bin/injector.rs:475-483 | the chain directory holds exactly the chain, file chain-k.cert being the k-th, read-only |
| InjectedPod.NothingElseChanges | src/bin/injector.rs:413-493 | volumes, mounts and variables of the injected names are there once each; every other entry keeps its place in the order, and every other member of the pod and of each container its value |
| InjectedPod.DocumentPaths | src/bin/injector.rs:439-494 | the paths of the patch are where the pod's JSON has its volumes and each container's name, mounts and variables |
| MeshTypes.PublishedConditions | src/router_controller/router.rs:102-173 | each published flag speaks for the status the pass saw, Ready for all three, and no transition time is older than the pass |
| MeshTypes.MissingReads | src/router_controller/router.rs:146-161 | the list of missing prerequisites in each of the eight cases |
| MeshController.PutFresh | src/router_controller/router.rs:105-111 | upserting a type that is not there yet appends it |
| MeshController.ReadyMessage | src/router_controller/router.rs:146-161 | the message names the missing prerequisites in order |
| MeshController.BaseConditions | src/router_controller/router.rs:104-173 | the five conditions upserted at the start of a pass, in order |
| MeshController.MarkSynced | src/router_controller/router.rs:279-285 | at the end NeighborsSynced changes in its place and nothing else does |
| MeshController.ApiServer.RouterReconcile | src/router_controller/router.rs:96-294 | the loop over the listed routers changes the store as a whole pass does and fails exactly when a patch is refused |
| MeshController.ApiServer.RouterCleanup | src/router_controller/router.rs:296-372 | the entry is removed where the list showed it |
| MeshController.ApiServer.NeighborReconcile | src/neighbor_controller/neighbor.rs:52-89 | the entry is added to each listed router up to the first refusal |
| MeshController.ApiServer.NeighborCleanup | src/neighbor_controller/neighbor.rs:91-127 | the entry is removed from each listed router up to the first refusal |
| MeshController.ApiServer.Reconcile | src/router_controller/main.rs:32-47 | the finalizer protocol around reconcile and cleanup is a whole pass, and a cleaned-up object goes exactly when its cleanup succeeds |
| MeshPasses.AddAllSpec | src/neighbor_controller/neighbor.rs:60-87 | adding everywhere succeeds exactly when each listed router has a status; then exactly these hold the entry in addition |
| MeshPasses.RemoveAllSpec | src/neighbor_controller/neighbor.rs:97-125 | removing everywhere succeeds exactly when each listed router holds the entry |
| MeshPasses.NeighborCleanupSucceedsIff | src/neighbor_controller/neighbor.rs:91-127 | a Neighbor's cleanup completes exactly when every router of the network holds its entry |
| MeshPasses.RouterCleanupSucceeds | src/router_controller/router.rs:312-345 | a router's cleanup completes from whatever partial state earlier attempts left |
| MeshPasses.WholePassIsRun | src/router_controller/router.rs:96-372 | a pass that nothing interrupts is the run of its single API calls |
| MeshSafety.StepInv | src/router_controller/router.rs:189-372 | every step keeps the invariant of entries, passes, objects and faces |
| MeshSafety.RunInv | src/router_controller/router.rs:189-372 | the invariant holds over every run |
| MeshSafety.AddAccepted | src/router_controller/router.rs:247-250 | adding an entry is refused without a status only |
| MeshSafety.RemoveAccepted | src/router_controller/router.rs:341-344 | removing an entry is refused without the entry only |
| MeshTheorems.InnerEntriesAreSound | src/router_controller/router.rs:189-260 | in every reachable world an inner entry is keyed by a different, still existing router of the same network and holds a face that router published |
| MeshTheorems.OuterEntriesAreSound | src/neighbor_controller/neighbor.rs:52-89 | an outer entry is keyed by a still existing Neighbor of the network and holds its URI |
| MeshTheorems.CleanedUpForGood | src/router_controller/router.rs:296-355 | once a cleanup has completed, after any failed attempts and with anything else going on, no router ever lists the object again |
| MeshTheorems.ReleaseOnlyWhenUnlisted | src/router_controller/router.rs:305-345 | when the last patch of a cleanup is done nobody lists the object, and it goes |
| MeshTheorems.RouterRemovalFailsOnlyIfPeerGone | src/router_controller/router.rs:312-345 | in every run, a router's removal patch fails exactly when the peer has gone since it was listed |
| MeshTheorems.FailedCleanupBlocks | src/neighbor_controller/neighbor.rs:97-117 | a Neighbor's attempt that has removed an entry and then fails leaves the cleanup blocked |
| MeshTheorems.BlockedForGood | src/neighbor_controller/neighbor.rs:91-127 | and no number of later attempts, in any run, completes it while that router is still there |
| MeshTheorems.LateRouterBlocks | src/neighbor_controller/neighbor.rs:97-117 | a concrete run without any crash that blocks it: a router joins after the Neighbor was announced |
| MeshProvenance.RunTraced | src/router_controller/router.rs:96-294 | over every run, each pass of a router carries the status it began with, and has told every listed peer but those still to do |
| MeshProvenance.PublishedWasEarned | src/router_controller/router.rs:174-294 | in any run, the conditions a router shows tell of the status that one of its passes began with; NeighborsSynced is True exactly if that was online, and then, if it had a face, the pass listed the peers and told every one of them that face |
| MeshConvergence.ContinueSynced | src/router_controller/router.rs:201-260 | in a settled network each patch of a pass succeeds and strikes one router off what is still to do |
| MeshConvergence.SyncRun | src/router_controller/router.rs:200-292 | over any run without joins or leaves in the network, completed passes stay effective |
| MeshConvergence.EveryoneListed | src/router_controller/router.rs:200-292 | once each owner has completed a pass, every member lists each of them with its value: no update is lost |
| MeshConvergence.SilentFromTheStart | src/router_controller/router.rs:174-187 | in every reachable world a router that never came online, or never got a face, announces nothing and is listed by nobody |
| MeshConvergence.OnlineMeshReached | src/router_controller/router.rs:174-292 | every interleaving of full passes, with crashes and patches to other fields, ends in the same inner maps: each router, online or not, lists exactly its peers that are online with a face |
| MeshConvergence.FullMeshReached | src/router_controller/router.rs:200-292 | when all are online with a face that is the full mesh |
| MeshConvergence.OuterReached | src/neighbor_controller/neighbor.rs:60-87 | and in outer maps that hold exactly the network's Neighbors, each under its name with its URI |
| MeshConvergence.LinksReached | src/bin/pod_sidecar.rs:60-92 | end to end: a router's live links are exactly the faces of its online peers and the URIs of the Neighbors |
| MeshConvergence.NoPassFails | src/router_controller/router.rs:247-250 | in a settled network no pass that began there is refused a patch |
| MeshConvergence.PassCompletes | src/router_controller/router.rs:201-292 | a whole pass of its own steps completes there |
| MeshPatches.AddEntryMeans | src/router_controller/router.rs:226-234 | the add patch on the router's JSON is the model's change, and is refused exactly when there is no status |
| MeshPatches.RemoveEntryMeans | src/router_controller/router.rs:326-333 | the remove patch likewise, refused exactly when the entry is missing |
| MeshPatches.OnlineMeans | src/bin/pod_sidecar.rs:47-50 | the sidecar's replace patch likewise, refused exactly when there is no status |
| MeshPatches.InitMeans | src/bin/pod_init.rs:460-472 | the init container's merge patch followed by the CRD's defaults: sets or removes the face, sets initialized, keeps the rest |
| MeshPatches.ConditionsMeans | src/router_controller/router.rs:286-293 | the conditions merge patch followed by the defaults creates a missing status and changes nothing else |
| MeshPatches.StoredIsDefaulted | charts/ndn-operator/templates/crd/router.yaml:112-135 | a stored status has all its defaults already |
| MeshPatches.RouterPaths | charts/ndn-operator/templates/crd/router.yaml:68-135 | the document of a stored router has each part of its status under the CRD's name for it |
| MeshPatches.ConditionsInDocument | src/router_controller/router.rs:104-173 | in the document, the condition of each of the five published types says what its name says of the status the pass saw |
| MeshPatches.ChooseFace | src/bin/pod_init.rs:424-459 | the one face published: preferred family, else the other, else none; and it reads back as that address, its family and the port |
| MeshPatches.Udp4ReadsBack | src/bin/pod_init.rs:432 | an IPv4 face reads back as its address and port exactly when the address has no colon and no bracket in front |
| MeshPatches.Udp6ReadsBack | src/bin/pod_init.rs:437 | an IPv6 face exactly when the address has no closing bracket |
| MeshPatches.FacesDiffer | src/bin/pod_init.rs:424-459 | faces of different addresses, families or ports are different |
| Sidecar.Watcher.HandleEvent | src/bin/pod_sidecar.rs:60-92 | one event issues exactly one create per added and one destroy per removed URI, creates first, and afterwards the live links are the merged URIs |
| Sidecar.Watcher.Watch | src/bin/pod_sidecar.rs:58-92 | over a whole watch the commands of each URI alternate and the links are what the last event asks for |
| Sidecar.AlternatesStep | src/bin/pod_sidecar.rs:69-88 | a log keeps alternating exactly when each command creates a missing link or destroys an existing one |
| Sidecar.DestroyedWithLastHolder | src/bin/pod_sidecar.rs:17-34 | a link is destroyed exactly when some neighbour held its URI and none does any more |
| Sidecar.SessionAlternates | src/bin/pod_sidecar.rs:60-92 | every log that a watch over any events can leave alternates, starting with create, and leaves the last event's links |

## Left out

- Kubernetes client, watch streams, servers, events, logging, telemetry and command-line handling: only the effect of each call on the store is kept.
- `ndnd` key generation and signing, UTF-8 checks and Secret decoding: keys are identities, Secret entries are already decoded, and an entry that does not parse is an absent one.
- Date formats: parsing a date is a parameter of `HeaderText.CertOfText`; elsewhere times are integers in nanoseconds.
- The panic of chrono on date overflow: times are unbounded, but durations out of chrono's range are modelled.
- NDN names and signature types in statuses: a key's name stands for the key, and the signature type is not kept.
- Readings of the clock inside one step: conditions upserted in the same step share one reading.
- The sorted order of link commands: one event's creates come in any order, and its destroys after them in any order.
- Injector.BuildPatch: the pod is the typed pod, so members that the API types do not know are not part of it.
- CertificateController.Cluster.Reconcile: the list of passes in flight is empty in this class; interleaving is in `CertificateWorld` only.
- MeshController.ApiServer.Reconcile: as a class it is a pass without interference; interleaving is in `MeshWorld` only.
- The finalizer helper of the client library: its test of the object's version when it patches is not modelled, because passes on one object do not overlap.
- Deletion of Certificates and ExternalCertificates, and re-creation under the same name.
- DaemonSet and network builders, `gen_config`, CRD generation, Helm, Terraform and shell scripts: large literals with easy properties.
- Sidecar restarts with links left over, relabelled routers, cross-namespace issuers and stale caches: excluded by the assumptions above.
