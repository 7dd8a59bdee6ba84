# A verified model of the eParaksts signer

The signer takes documents from a portal, lets a person sign them with an eID card, a phone or a
CSC credential, and has the provider's SignAPI apply the signatures. This project models the two
parts everything else depends on and proves what they promise.

**The signature-encoding boundary** (`Bytes`, `Der`, `Base64`, `Ecdsa`). A signature value is
passed through as DER, converted from the fixed-width `r‖s` form of IEEE P1363, or refused. The DER
reader and writer follow sections 8.1.3, 8.3 and 10.1 of ITU-T X.690 as Go's `encoding/asn1` applies
them to Ecdsa-Sig-Value (section 2.2.3 of RFC 3279); the wrapper is base64 of section 4 of RFC 4648 as
Go decodes it (CR and LF skipped, trailing bits ignored).

**The signing-job protocol.** `Jobs`, `AuthCert`, `Upstream` and `Flows` say what each handler and
each flow makes of the job it holds, as a function of the job and of the provider's answers.
`Machine` puts them together: a store (jobs, OAuth-state index, work queue), handlers, any number of
workers and a log of every upstream call. On it stand the theorems about every run: `Shape`,
`AtMostOnce`, `Provenance`, `DigestBinding`, `SingleAnswer`, `StateIndex`, `Lifecycle`, `WorkQueue`,
`Stranding`, `Certificates`, `Timestamps`, `Submission`, `DeviceCode` and `Reports` (`Copies` is the
invariant machinery they share). `Outcomes` says step by step what each handler comes to, condition by
condition and field by field, without naming the functions that compute it.

**The code as it runs.** `JobRecords`, `JobStore`, `SigningFlows` and `Orchestration` are the same
code in its own form: a job updated field by field, loops over documents and submissions, Redis
commands one at a time. Each method is proved to do what its function in `Flows` says, and each public
method of the orchestrator to be exactly one step of the machine (RunJob: one worker's steps in
order), so the theorems about runs are theorems about sequences of calls. `Traces` carries a run
beside the code.

No proof relies on automatic induction: every lemma to which Dafny would apply it carries
`{:induction false}`.

**Side machines.** `Retry` (the SignAPI client's sending disciplines), `TokenCache` (the introspect
token) and `Device` (the eidScan push and poll).

## What is assumed

- A handler (Prepare, Callback, SubmitSignatures, DeleteJob, ArchiveJobDocument) is one atomic step.
  The code takes no lock between Load and Save, so two handlers on one job can interleave there; the
  model does not follow that. RunJob is not atomic: it stops between any two of its calls, where other
  steps happen and where it may crash.
- Job ids and OAuth states never repeat, and a state is not empty (`Machine.Fresh`).
- Every Redis write may be lost, or take effect without being acknowledged. Two kinds of run are named
  where a theorem needs more: one in which every Save, ClearState and Delete succeeds, while queue
  items may still be lost and workers crash (`StateIndex.Durable`), and one in which nothing at all is
  lost (`WorkQueue.Smooth`).
- Provider answers are free choices, hence parameters. What `VerifySignature` says of a value is an
  answer too, but each call of it is logged with its arguments; `Bound` is equality of credential and
  digests; `CheckSigning`, the x509 checks, identity selection and the verification code are answers.
- Every upstream call a theorem is about is logged with its arguments and the job as its caller held
  it; the log is the model's, the code has none.

## Where the code differs from what it says

- `signing/ecdsa.go:50` says a passed-through value round-trips exactly. Bytes after `s` inside the
  SEQUENCE are tolerated, so it need not: `Ecdsa.PassedNeedNotBeCanonical` is a value,
  `Ecdsa.PassedIsCanonicalIff` the exact condition.
- FAILED is an end state in `job/job.go:80-107`, but a worker that still holds an older copy can
  overwrite it: `Lifecycle.FailedCanBeLeft` is a run (the browser repeats the last callback while the
  worker signs), `Lifecycle.FailedIsLeftIff` says exactly which steps do it, and
  `Lifecycle.FailedIsAbsorbing` that none does when no callback arrives for a job a worker holds.
- READY is an end state there too, but a callback that resolves to a READY remote job makes it FAILED,
  its documents staying READY: `Lifecycle.ReadyCanBeLeft` is a run (the browser repeats the last callback
  once the job is done), and `Lifecycle.ReadyIsLeftIff` says that this is the only way.
- `signing/worker.go:16-18` and `job/store.go:102-104` say that a dropped queue item is safe to
  re-process and that a shutdown loses nothing. Nothing re-processes one: `Stranding.DequeueCanStrand`
  is a run that leaves a job SIGNING with no worker coming, and by `Stranding.StrandedStep` and
  `Stranding.StrandedForever` such a job is never queued again and never changes, unless a callback
  fails it or it is deleted. Nor is re-processing always safe: `Stranding.RerunCanRepeat` is a run after
  which it calls the signer a second time, and `Stranding.RerunIsSafeIff` is the exact condition on the
  stored job and the log.
- A batch may carry one document id twice. A submission for it is accepted, the second document gets
  no value, and no finalize request is ever sent for the job: `Submission.RepeatedIdIsAccepted` is a run,
  `Submission.FinalizableIff` the exact condition on a submission, `Submission.IdsNeverChange` and
  `Submission.RepeatedIdSendsNothing` what follows for every run.
- A digest is said to be echoed and never recomputed (`job/job.go:163-164`). At most one answer is ever
  applied to a stored job that has not failed (`SingleAnswer.AppliedAtMostOnce`), but the provider may be
  asked to compute it twice: where one callback loses both the clearing of its state and its Save
  (`SingleAnswer.CountCanBeTwo` is a run), and only there (`SingleAnswer.CalculatedAtMostOnce`).

## Model

| member | source | states |
|---|---|---|
| Der.UnmarshalExactly | signing/ecdsa.go:18-57 | octet by octet: the reader finds positive r and s, in that order, exactly in the strings that are 30, a length, 02, a length, the minimal contents of r, 02, a length, those of s, and whatever follows inside and outside |
| Der.LengthIsOctets | signing/ecdsa.go:70 | the length octets, form by form: short below 80, otherwise 81 to 84 and the fewest octets that hold it |
| Base64.RoundTrip | signing/ecdsa.go:36-46 | decoding what was encoded gives the bytes back |
| Base64.AlphabetIsStandard | signing/ecdsa.go:36-46 | the 64 letters, both ways, are those of table 1 of RFC 4648, and no other character has a value |
| Base64.QuantumIsBits | signing/ecdsa.go:36-46 | four letters are the 24 bits of three bytes, six at a time, most significant first |
| Base64.StandardVectors | signing/ecdsa.go:36-46 | four test vectors of section 10 of RFC 4648 |
| Base64.DecodableIff | signing/ecdsa.go:36-46 | text without line breaks decodes exactly when it is quanta of letters, the last perhaps with one or two padding signs |
| Base64.BreaksAreIgnored | signing/ecdsa.go:36-46 | a CR or LF anywhere makes no difference to what a text decodes to |
| Base64.TrailingBitsAreIgnored | signing/ecdsa.go:36-46 | the bits a padded quantum does not use may be anything |
| Ecdsa.ConvertedOctets | signing/ecdsa.go:63-75 | the converted output octet by octet: 30, the length (81 and the length from 80 on), then for the first half and then for the second 02, a length, and the half without its leading zeros, with one 00 in front exactly when its top bit is set |
| Ecdsa.ConvertedExamples | signing/ecdsa.go:63-75 | r = 1, s = 2 gives 30 06 02 01 01 02 01 02, and r = 80 hexadecimal gets its pad byte |
| Ecdsa.ConversionIsExact | signing/ecdsa.go:63-75 | the output spells the two halves in their order, and it, and no other string, reads as DER for the big-endian values of the two halves with nothing left over |
| Ecdsa.ConvertedSize | signing/ecdsa.go:63-75 | outputs are 8..72, 8..104 or 8..141 bytes by width; the long length form appears exactly when the contents exceed 127 bytes, which only 132-byte values can force |
| Ecdsa.ConversionIsInjective | signing/ecdsa.go:63-75 | no two values of one width convert to the same DER |
| Ecdsa.OverlapIsExact | signing/ecdsa.go:49-75 | a value of P1363 width is read as DER if and only if it starts 30 3E, 30 5E or 30 81 81 by width and two minimal positive INTEGERs follow; every other one is converted exactly when both halves are non-zero |
| Ecdsa.NormalizeIsIdempotent | signing/ecdsa.go:49-78 | an accepted output normalizes to itself as DER, and stands for the same r and s as the input |
| Ecdsa.RefusedExactly | signing/ecdsa.go:49-78 | passed through unchanged exactly when the octets are those of two positive INTEGERs, with or without bytes after them; refused exactly when they are not and the value is not 64, 96 or 132 bytes with a non-zero byte in each half |
| Ecdsa.PassedIsCanonicalIff | signing/ecdsa.go:50-57 | a passed-through value is what the writer would produce if and only if nothing follows s inside the SEQUENCE |
| Ecdsa.PassedNeedNotBeCanonical | signing/ecdsa.go:50-57 | a nine-byte value that is passed through and is not canonical |
| Ecdsa.NormalizeEncoded | signing/ecdsa.go:36-46 | on text that encodes a value the wrapper does what normalizing does to the value |
| Ecdsa.NormalizeTextByValue | signing/ecdsa.go:36-46 | any two texts that decode to the same value normalize alike, and text that does not decode is refused |
| Ecdsa.NormalizeTextIsIdempotent | signing/ecdsa.go:36-46 | the text that comes out is a fixed point, character for character, with the same r and s |
| Jobs.LeadsIsTheClosure | job/job.go:85-115 | `Leads` is exactly reachability by the transition table |
| Jobs.TableIsExact | job/job.go:85-115 | the table allows staying put and eleven moves, listed |
| Jobs.DocIndexFirst | job/job.go:313-320 | the document found is the first with the id, and none is found exactly when there is none |
| Jobs.DigestsAt | job/job.go:273-283 | every document's digest is decoded, in document order |
| AuthCert.ParseFlowSet | signing/authcert.go:49-66 | a registered flow is in the set exactly when some stretch between commas, without the Unicode white space at its ends, is the flow's name or "all" in any case |
| AuthCert.Collect | signing/authcert.go:50-65 | the loop: a flow is in exactly when an entry names it or every flow |
| AuthCert.SplitExactly | signing/authcert.go:51 | Split finds exactly the stretches between commas and ends that hold no comma |
| AuthCert.TrimExactly | signing/authcert.go:52 | Trim is the one stretch between the white space at either end |
| AuthCert.SpacesAreUnicode | signing/authcert.go:52 | white space is the 25 characters of Unicode's White_Space |
| AuthCert.AllIsEitherCase | signing/authcert.go:56 | "all" is recognized in each of its eight spellings and no other |
| AuthCert.FlowNamesAreDistinct | job/job.go:25-33 | the seven flow names, each of one flow |
| AuthCert.CertificateExactly | signing/authcert.go:157-168 | the certificate is the deployment's without outer space for the flows configured so, the job's own otherwise, with that source, and is available exactly when not empty |
| AuthCert.OfferedByFlow | signing/orchestrator.go:122-133 | flow by flow: four always, legacyEid when switched on, the two CSC flows when CSC is configured |
| Flows.BatchHashFits | signing/csc.go:228-249 | the algorithm named is SHA-256, SHA-384 or SHA-512 exactly when every digest has 32, 48 or 64 bytes; none for an empty or mixed batch |
| Flows.LastForIs | signing/orchestrator.go:548-566 | the digest of a session is the one of the last answer for it, and none exactly when no answer names it |
| Flows.FinalizedMeans | signing/orchestrator.go:578-632 | refused exactly when the certificate is empty, counted and not sent exactly when a value is no signature, otherwise one request pairing session k with the DER of value k; all documents READY and cleared exactly when it is taken |
| Copies.OnlyKnownCopies | signing/orchestrator.go:275-412 | a step brings about at most one new copy of a job, made from one already in the store, in a worker's hands or in the log |
| Shape.CallbackAdvances | signing/flows.go:139-154 | a callback leg completes only from the signature leg, redirects only from an earlier one to it, and touches no document's state |
| Shape.PreparedIsWellFormed | signing/orchestrator.go:178-268 | on every path, failed or not, the job Prepare saves is well-formed: a leg pending exactly while it awaits an authorization, no document READY, never PREPARING |
| Shape.AlwaysShaped | signing/orchestrator.go:152-412 | in every run every copy of every job is well-formed: documents READY together or not at all, a state that fits the flow and the pending leg, one format, one document for eidScan |
| AtMostOnce.CalledBackPast | signing/flows.go:139-154 | past the last leg every callback is refused and leaves the job past it |
| AtMostOnce.SignedAndFinalizedAtMostOnce | signing/orchestrator.go:275-412 | in every run, with any number of workers, crashes and lost writes, a job is enqueued, signed and finalized at most once |
| Provenance.AlwaysSound | signing/orchestrator.go:529-574 | in every run every copy that has not failed has its evidence in the log: the CalculateDigest answer, the consent or pushed and bound authorization, the signing call |
| Provenance.PreparedIsSound | signing/orchestrator.go:204-262 | the job Prepare saves, unless failed, shows nothing of an answer before its first leg, or else the CalculateDigest answer and the consent its state stands for, both just logged |
| Provenance.CalledBackIsSound | signing/orchestrator.go:282-312 | the job Callback saves, unless failed, has in the log the answer its digests are from, and the consent, or the credential's description, accepted push and binding, that carry them; after the profile leg its identity and certificates are those just answered |
| Provenance.CscIsEvidence | signing/csc.go:184-221 | a CSC signing that succeeds has called VerifySignature on each returned value over its own document's digest, with the job's certificate and algorithms, and each accepted |
| DigestBinding.AlwaysFaithful | signing/csc.go:184-221 | every logged call carries the arguments of the job it was made for |
| DigestBinding.CscSignsWhatWasConfirmed | signing/csc.go:92-221 | one digest sequence is CalculateDigest's answer for the leaf certificate the provider described the credential with, the one of an accepted push, the one found bound and the one signed with that credential, and the hash algorithm fits every digest in it |
| DigestBinding.TrustedXSignsWhatWasConsented | signing/flows.go:115-257 | the digests sent to the signer and the summary in the consent under the job's state come from the same answer, computed for the job's signing certificate; the identity signed with and both certificates are the three Prepare was given, or those of one answered identity when it was not given all three |
| DigestBinding.FinalizeIsPaired | signing/orchestrator.go:589-617 | entry k of a finalize request carries document k's session and the DER of document k's value, which for a remote flow is the k-th value a signing call returned for the job's digests, the only signing call ever made for the job |
| DigestBinding.CscFinalizesVerifiedValues | signing/csc.go:208-220 | every value finalized for a CSC job is one that a logged VerifySignature call accepted, made with the job's certificate, signature and hash algorithm over that document's own digest |
| DigestBinding.CalculatedBeforeConfirmation | signing/orchestrator.go:529-574 | CalculateDigest is called only in Prepare or on a leg before the signature's, with the job's signing certificate, for a job that shows nothing of an answer or has failed; signAsPdf is every document's format, and createNewEdoc is set exactly when the first document is not PAdES and is to be created |
| SingleAnswer.AppliedAtMostOnce | signing/orchestrator.go:529-574 | in every run, whatever Redis loses, a stored job that has not failed has had exactly one CalculateDigest answer applied to it in a Save that was written from the signature leg on, and none before |
| SingleAnswer.CalculatedAtMostOnce | signing/orchestrator.go:548-551 | in every run in which no callback loses both the clearing of its state and its Save, CalculateDigest is answered at most once for a stored job that has not failed, and exactly once from the signature leg on |
| SingleAnswer.ShowsTheOnlyAnswer | signing/orchestrator.go:548-572 | in such a run the digests, and for TrustedX the summary and algorithms, on the job are those of the one and only answer ever given for it |
| SingleAnswer.CountCanBeTwo | signing/orchestrator.go:275-309 | a run in which one callback loses both, and CalculateDigest is answered twice for a job that has not failed |
| StateIndex.AlwaysOwned | job/store.go:41-100 | whatever Redis loses, a state on a copy or in the index is that of the one job it was minted for, copies of a job agree on its flow, and client-side jobs have no state |
| StateIndex.AuthorizationIsUnique | signing/csc.go:168-174 | at most one authorization is ever made under a state |
| StateIndex.IndexIsExact | job/store.go:41-100 | when every Save, ClearState and Delete succeeds, crashes and lost queue items notwithstanding, the index maps a state to a job if and only if the stored job carries that state |
| StateIndex.RetiredNeverResolves | signing/orchestrator.go:275-309 | in such a run a callback with the state of an earlier leg finds nothing and changes nothing |
| Lifecycle.DocumentsReadyTogether | signing/orchestrator.go:578-632 | stored documents are READY, with no signature value, all or none; READY jobs have READY documents; PREPARING is never stored; client-side jobs never await authorization or sign remotely |
| Lifecycle.ReadyStaysReady | job/job.go:298-310 | once a job's documents are READY in the store they are READY whenever they are in the store again, over any run |
| Lifecycle.StoredStateMoves | job/job.go:85-115 | every step leaves a stored state, moves it along the table, or fails the job, except where a worker overwrites FAILED |
| Lifecycle.FailedIsLeftIff | signing/orchestrator.go:375-412 | a step takes a stored job out of FAILED if and only if it is a worker's written Save of a copy that has not failed |
| Lifecycle.FailedIsAbsorbing | signing/orchestrator.go:375-412 | FAILED is final in every run in which no callback arrives for a job a worker holds |
| Lifecycle.FailedCanBeLeft | signing/orchestrator.go:295-320 | a run in which a stored job goes from FAILED to FINALIZING |
| Lifecycle.ClientReadyIsAbsorbing | signing/orchestrator.go:330-370 | READY is final for a client-side job |
| Lifecycle.ReadyIsLeftIff | signing/orchestrator.go:275-300 | a step takes a stored job out of READY if and only if it is a callback that resolves to it and whose Save is written; the job is then FAILED |
| Lifecycle.ReadyCanBeLeft | signing/orchestrator.go:275-300 | a run that signs and finalizes a job, after which the last callback repeated takes it from READY to FAILED with every document READY before and after |
| Lifecycle.CalledBackMovesOn | signing/orchestrator.go:282-312 | a callback leaves the documents READY exactly if they were, moves the state by the table or fails it, always fails it when declined, with no call made, and past the last leg always fails it |
| WorkQueue.WorkableIsQueuedOnce | signing/orchestrator.go:312-318 | when nothing is lost a job stored as SIGNING or FINALIZING is in the queue exactly once or in the hands of exactly one worker, never both |
| WorkQueue.QuietIsFinished | signing/worker.go:47-78 | with the queue empty and the workers idle, nothing lost, no stored job is SIGNING or FINALIZING and every job ever enqueued is READY or FAILED |
| WorkQueue.DrainingEnds | signing/worker.go:47-78 | however n workers are scheduled, and whatever they lose or crash on, they take no more steps than the backlog they started with |
| WorkQueue.DrainedIsFinished | signing/worker.go:47-78 | n workers that lose nothing and go on while any can leave no job that needs one |
| WorkQueue.EndedSendsNothing | signing/orchestrator.go:382-411 | once a job is stored neither SIGNING nor FINALIZING, or is gone, and no worker holds an older copy, no continuation by workers makes any call for it or changes it; its id is at most dequeued |
| Stranding.DequeueCanStrand | signing/worker.go:59-75 | a run in which a dequeue is lost and the job is left SIGNING, neither queued nor held |
| Stranding.StrandedStep | job/store.go:102-107 | one step on, a stored SIGNING or FINALIZING job neither queued nor held is still neither; it is unchanged, but FAILED exactly if a callback resolves to it and is written, and gone exactly if deleted |
| Stranding.StrandedForever | job/store.go:102-107 | from then on, in every run, it is never queued and never held again, and whenever stored it is the same job or FAILED |
| Stranding.RerunIsSafeIff | signing/orchestrator.go:372-412 | running a stored job again repeats no signing and no finalize call, whatever is answered and configured, if and only if it is SIGNING and never signed, FINALIZING and never finalized or with a value that is no signature, or neither |
| Stranding.RerunCanRepeat | signing/worker.go:16-18 | a run after which running the stored job again can sign it a second time |
| Timestamps.EveryAttemptIsCounted | signing/authcert.go:180-215 | over every run requests plus refusals equal finalize attempts plus archive attempts on READY documents, and finalize and archive calls never exceed requests |
| Timestamps.SourceIsByList | signing/authcert.go:157-168 | under one configuration a request's source is the deployment exactly when the configured list names the flow or "all" |
| Timestamps.AlwaysSourced | signing/authcert.go:157-168 | under one configuration every finalize and archive call carries the deployment's certificate when the list names the flow and the job's authentication certificate otherwise, trimmed and not empty; it was requested only where that is not empty and refused only where it is; an archive call is for a READY document and its session |
| Timestamps.FinalizeAttempt | signing/orchestrator.go:578-587 | a finalize attempt logs a refusal exactly when the certificate due is empty, and otherwise first a request with its source |
| Timestamps.ArchiveStep | signing/operations.go:99-118 | an archive request goes to the session of the first document with the id asked for, with the certificate due, is refused exactly when that is empty, and changes nothing when the document is not READY or not there |
| Timestamps.SignersStampIsTraced | signing/flows.go:201-208 | where the list does not name the flow, a finalize request carries the authentication certificate Prepare was given or the one answered for the authentication identity |
| Timestamps.CscIsNeverRefused | signing/orchestrator.go:172-176 | under one configuration no CSC job is ever refused for want of a timestamp certificate, at finalize or at archive |
| Submission.AcceptedIff | signing/orchestrator.go:330-360 | accepted exactly for a webEid job, or a legacyEid one where that is on offer, awaiting signatures, when the submitted ids are the job's ids as sets |
| Submission.AttachedAt | signing/orchestrator.go:346-357 | the first document of each id gets the last value submitted for it, and nothing else changes |
| Submission.SubmittedValues | signing/orchestrator.go:346-362 | with distinct ids every document of an accepted submission carries the last value submitted for it, and the job is FINALIZING |
| Submission.SubmissionStep | signing/orchestrator.go:330-370 | however Redis answers, a refused submission leaves the whole state unchanged; an accepted one stores that job alone if its Save is written, and queues it last if the Save is acknowledged and the push succeeds |
| Submission.FinalizableIff | signing/orchestrator.go:346-362 | an accepted submission for documents without values can be finalized if and only if their ids are distinct and the last value submitted for each is a signature |
| Submission.IdsNeverChange | signing/orchestrator.go:191-202 | whatever copy of a job there is at any later time has the flow and the document ids it was stored with |
| Submission.RepeatedIdSendsNothing | signing/orchestrator.go:346-360 | for a client-side job ever stored with a repeated id no finalize request is ever sent, in any run |
| Submission.RepeatedIdIsNeverFinalized | signing/orchestrator.go:589-624 | in every run a finalize request for a client-side job is for documents with distinct ids |
| Submission.RepeatedIdIsNeverReady | signing/orchestrator.go:346-360 | in every run a client-side job stored READY has documents with distinct ids |
| Submission.RepeatedIdIsAccepted | signing/orchestrator.go:346-370 | a run in which a batch that repeats an id is prepared, and its submission accepted and queued |
| DeviceCode.CodeIsStoredBeforePush | signing/flows.go:276-287 | in every run the code a device was pushed is that of a job that was in the store, exactly as pushed, before the push |
| Certificates.AlwaysCertified | signing/orchestrator.go:204-250 | in every run every copy that has not failed carries the certificates its Prepare was given; a TrustedX job not given all three has none before the profile leg ends, and after it the identity, signing certificate and authentication certificate of one logged answer |
| Certificates.PreparedIsTaken | signing/orchestrator.go:204-250 | the job Prepare saves, unless failed: both certificates of the request for a local card, the authentication one for CSC, all three or none for TrustedX |
| Certificates.ProfileIsIdentified | signing/flows.go:158-208 | a profile leg that redirects leaves on the job the signing identity answered, its certificate and the authentication identity's, each in its place |
| Outcomes.DeclinedFails | signing/orchestrator.go:282-286 | a declined callback leaves the job it finds FAILED with that code if its Save is written, touches no other, makes no call and queues nothing, whatever was answered |
| Outcomes.SigningIff | signing/orchestrator.go:302-312 | a written callback leaves the job SIGNING if and only if it was not declined, the job awaited the signature authorization, and a token was answered, for CSC with an authorization for the job's credential and exactly its digests |
| Outcomes.CallbackStep | signing/orchestrator.go:275-320 | a callback that is not declined queues the job exactly when it completes the signature leg, its Save is acknowledged and the push succeeds; the job it writes is spelled out for each way it can end |
| Outcomes.CallbackMeans | signing/flows.go:139-154 | done, redirected or refused, and exactly when, for every flow and leg |
| Outcomes.ProfileMeans | signing/flows.go:158-231 | the profile leg redirects exactly with a token, both identities, both certificates, digests for every document and a state, and leaves them on the job |
| Outcomes.CredentialMeans | signing/csc.go:126-179 | the credential leg redirects exactly for a named credential that may sign and has a certificate, digests for every document, one hash that fits them all and that the credential signs, and an accepted push; and leaves exactly those on the job |
| Outcomes.CompletesExactly | signing/csc.go:92-121 | the signature leg is done exactly with a token and, for CSC, an authorization equal to the job's credential and digests one by one; the token is kept, the leg and the verifier cleared |
| Outcomes.CalculatedMeans | signing/orchestrator.go:529-574 | succeeds exactly when every session is answered; each document then has the last digest answered for its session, and the job what it had not got yet |
| Outcomes.CalculatedInPart | signing/orchestrator.go:548-566 | an answer that ends early is applied up to the first document it does not cover |
| Outcomes.AdmittedIff | signing/orchestrator.go:152-176 | what Prepare admits: a batch of one format, one document for eidScan, a flow on offer, and for CSC a timestamp certificate |
| Outcomes.PreparedMeans | signing/orchestrator.go:178-268 | for every flow and every answer: when Prepare succeeds, the sessions, certificates, leg, state and verifier on the job it saves, and the code it fails with |
| Outcomes.CreatedInPart | signing/orchestrator.go:482-505 | the sessions started before an upload failed stay on their documents |
| Outcomes.CscSignMeans | signing/csc.go:184-221 | the token is spent, document k has the k-th signature exactly when it and all before it were accepted, and signing succeeds exactly when all were |
| Outcomes.ServerSignMeans | signing/flows.go:241-257 | document k has the k-th signature when there are as many as documents, and otherwise nothing changes |
| Outcomes.DeviceSignMeans | signing/flows.go:261-303 | the answered code goes on a job of one document, and the pushed signature on that document |
| Outcomes.WorkerMeans | signing/orchestrator.go:382-409 | what a worker saves after Sign, after the code and after finalize: on to the next state, or FAILED with the code of what went wrong |
| Reports.AlwaysReported | signing/orchestrator.go:152-412 | every answer a logged call shows is one that a step of the run was given, for the job the log names |
| Reports.ReadyWasTaken | signing/orchestrator.go:617-631 | in every run a stored job with a READY document is one the provider took a finalize request for |
| JobRecords.JobRecord.Transition | job/job.go:287-294 | moves exactly when the table allows it, and changes nothing otherwise |
| JobRecords.JobRecord.Fail | job/job.go:298-310 | the loop fails every document that is not READY, keeps the first error, and fails the job whatever the table says |
| JobRecords.JobRecord.Doc | job/job.go:313-320 | the loop finds the first document with the id, or none exactly when there is none |
| JobRecords.JobRecord.Digests | job/job.go:273-283 | the loop decodes every digest in order, or refuses all |
| JobStore.Store.Save | job/store.go:41-55 | writes the job and then its state index, as far as Redis took them |
| JobStore.Store.Load | job/store.go:58-71 | a fresh copy of the stored value, or none |
| JobStore.Store.LoadByState | job/store.go:74-83 | the job its state resolves to, as a fresh copy, or none when either read fails or finds nothing |
| JobStore.Store.ClearState | job/store.go:87-92 | removes that entry and no other |
| JobStore.Store.Delete | job/store.go:95-100 | removes the job and the state it carries, and nothing else; reports whether the job's deletion was acknowledged |
| JobStore.Store.EnqueueWork | job/store.go:105-107 | adds the id behind every other |
| JobStore.Store.DequeueWork | job/store.go:111-124 | takes the oldest id; a lost answer loses the id |
| SigningFlows.CreateSessionsAndUpload | signing/orchestrator.go:482-505 | the loop stops at the first document not uploaded, with the sessions started so far on their documents |
| SigningFlows.CalculateJobDigests | signing/orchestrator.go:529-574 | the three loops: one request for every session, each document the digest last answered for its session, the summary and algorithms set once, stopping at the first session without one |
| SigningFlows.DigestAlgorithm | signing/csc.go:228-249 | the two loops name the one algorithm that fits every digest, or none |
| SigningFlows.SignCscHashes | signing/csc.go:184-221 | one signHash, the token spent whatever the answer, and values taken only up to the first that is not verified |
| SigningFlows.TakeSignatures | signing/csc.go:208-220 | the loop verifies value i over digest i before it looks at the next, and stops at the first that is missing or not accepted |
| SigningFlows.SignServerBatch | signing/flows.go:241-257 | the digests sent in document order, and the values put on the documents in the same order, all or none |
| SigningFlows.FinalizeJob | signing/orchestrator.go:578-632 | the certificate of the deployment or the signer as configured, then every value, then one request; all documents READY and cleared, or none touched |
| SigningFlows.ValidateBatch | signing/orchestrator.go:690-704 | at least one document, one only for eidScan, one format throughout |
| SigningFlows.AttachSignatures | signing/orchestrator.go:346-360 | the loop attaches every value and succeeds exactly when every id is known and every document is covered |
| Orchestration.Orchestrator.Prepare | signing/orchestrator.go:152-268 | is exactly one step of the machine, is refused exactly when the request is not admitted, and stores exactly the job the request and the answers call for, and no other |
| Orchestration.Orchestrator.Callback | signing/orchestrator.go:275-320 | is exactly one step of the machine, and finds nothing exactly when a read fails or the state resolves to no stored job; declined, it stores the job FAILED and neither calls nor queues; otherwise verdict, stored job and queue are those of the leg, condition by condition |
| Orchestration.Orchestrator.SubmitSignatures | signing/orchestrator.go:330-370 | is exactly one step of the machine, and a refusal leaves store, queue and log as they were |
| Orchestration.Orchestrator.DeleteJob | signing/orchestrator.go:454-464 | is exactly one step of the machine, removes that job only, and succeeds exactly when the job was there and its deletion acknowledged |
| Orchestration.Orchestrator.ArchiveJobDocument | signing/operations.go:99-120 | is exactly one step of the machine; logs the request and the archive call for the session of the first stored document with the id asked for, or the refusal, exactly when that document is READY, and nothing otherwise |
| Orchestration.Orchestrator.RunJob | signing/orchestrator.go:375-412 | is exactly one worker's steps under the answers met and makes exactly the calls of the job it loads; touches no other job, does nothing unless the job is SIGNING or FINALIZING, and unless a write is lost leaves it neither |
| Orchestration.Orchestrator.PushHeld | signing/flows.go:276-298 | the store holds the job with its code once the Save is written, nothing is sent unless the Save is acknowledged, and then the push is of that very job |
| Orchestration.Orchestrator.Work | signing/worker.go:47-78 | each turn of the loop, its dequeue lost or not, takes the oldest id off the queue and is exactly a dequeue and a RunJob |
| Orchestration.Orchestrator.Drain | signing/worker.go:47-78 | a worker left alone with the queue, losing nothing, empties it and leaves no job SIGNING or FINALIZING |
| Retry.PatientCall | signapi/client.go:408-436 | at most three sends, every one before the last a failed dial, a 502 or a 503, so the provider may have started at most one |
| Retry.StartedUnless | signapi/client.go:427-436 | a send counts as possibly started unless it was a failed dial, a 502 or a 503 |
| Retry.Retried | signapi/client.go:323-347 | the first answer among three sends that is not a 5xx, else the last failure, else the cancellation |
| Retry.Backoff | signapi/client.go:543-552 | 200, 400, 800 and 1600 ms, and 2 s from then on |
| TokenCache.Cache.Find | entrust/client.go:115-121 | serves the token last kept, whatever the interleaving, if and only if more than the refresh margin is left on it |
| TokenCache.Cache.Put | entrust/client.go:128-131 | keeps the token with the expiry computed at its own mint |
| TokenCache.ServedIsUnexpired | entrust/client.go:114-133 | a served token was minted in this run and is unexpired at the issuer when every mint was kept within the margin of its issue |
| Device.PollUntil | signing/flows.go:290-314 | ends with the first answer, or past the grace time, or with the context; with a clock that does not go back it ends within one interval and one poll after the grace time |
| Device.SignDevice | signing/flows.go:283-315 | a signature pushed is deleted exactly once on every exit, nothing is pushed unless the publication succeeded, and the result is that of the first answer, or a timeout ten seconds past the deadline, or the context's end |

## Left out

- HTTP routing, DTOs, scopes, problem mapping and the upload gate (`routes/`): framework plumbing.
- The Save with which the status route marks the audit as emitted (`routes/signatures.go:278`): it writes a job it has just loaded.
- Configuration, wiring, audit emission, logging, metrics transport and tracing.
- Wire shapes and URL building in `entrust/trustedx.go`, `entrust/csc.go` and `signapi/types.go`: the calls are answers.
- Identity selection and the verification code (`entrust/identities.go`, `entrust/verifcode.go`): first-match scans and one modulus.
- Download, Validate and the archive of an uploaded file: they decide nothing about a job.
- closeSessions and closeLater: best effort, after the job is settled.
- Redis TTL expiry: stored jobs and index entries live until deleted.
- Interleaving of two handlers between Load and Save, as said under "What is assumed".
- UnknownFlowNames and OfferedFlows: reports only.
- Fields no decision reads (timestamps, locale, redirect targets, file names, subject, deadlines, error messages).
- Retry.Backoff: does not model the overflow of a 64-bit duration, which no attempt below 3 reaches.
- Orchestration.Orchestrator.ArchiveJobDocument: stops at the archive call; the download that follows changes nothing.
- Orchestration.Orchestrator.Work: takes the turns up to the moment it is stopped as a finite list; the stop itself is not modelled.
- Timestamps.CscIsNeverRefused: is about one configuration throughout; a deployment that changes its list or certificate between Prepare and finalize can refuse.
- Device.PollUntil: takes the ticker's promptness and the polls' latency as given, because they are the runtime's and the network's.
