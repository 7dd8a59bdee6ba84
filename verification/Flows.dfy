/**
 What each handler does to the job it holds: the shared spine and the signing flows
 (signing/orchestrator.go, signing/csc.go, signing/flows.go) as functions of the job and of the
 provider's answers. A call that fails half-way leaves the job as far as it got, because that
 is what is stored when the job is then failed.
 */
module Flows {
  import opened Wrappers
  import opened Bytes
  import opened Jobs
  import opened Upstream
  import opened AuthCert
  import Base64
  import Ecdsa

  datatype Outcome = Outcome(job: Job, ok: bool, events: seq<Event>)

  // ---- CalculateDigest ----

  /** The digest a session got: the last one answered for it. */
  function LastFor(answers: seq<SessionDigest>, sessionId: string): Option<string> {
    if answers == [] then None
    else if answers[|answers| - 1].sessionId == sessionId then Some(answers[|answers| - 1].digest)
    else LastFor(answers[..|answers| - 1], sessionId)
  }

  /** Answer i is for the session, and no later one is. */
  ghost predicate LastAt(answers: seq<SessionDigest>, sessionId: string, i: int) {
    && 0 <= i < |answers| && answers[i].sessionId == sessionId
    && forall k :: i < k < |answers| ==> answers[k].sessionId != sessionId
  }

  lemma {:induction false} LastForIs(answers: seq<SessionDigest>, sessionId: string)
    ensures match LastFor(answers, sessionId)
            case None => forall i :: 0 <= i < |answers| ==> answers[i].sessionId != sessionId
            case Some(g) => exists i :: LastAt(answers, sessionId, i) && answers[i].digest == g
  {
    if answers != [] {
      var last := |answers| - 1;
      LastForIs(answers[..last], sessionId);
      if answers[last].sessionId == sessionId {
        assert LastAt(answers, sessionId, last);
      } else if LastFor(answers, sessionId).Some? {
        var i :| LastAt(answers[..last], sessionId, i)
          && answers[..last][i].digest == LastFor(answers, sessionId).value;
        LastAtGrows(answers, sessionId, i);
      }
    }
  }

  lemma LastAtGrows(answers: seq<SessionDigest>, sessionId: string, i: int)
    requires answers != [] && answers[|answers| - 1].sessionId != sessionId
    requires LastAt(answers[..|answers| - 1], sessionId, i)
    ensures LastAt(answers, sessionId, i)
  {
    assert forall k :: 0 <= k < |answers| - 1 ==> answers[..|answers| - 1][k] == answers[k];
  }

  /** How many leading documents have a digest in the answer. */
  function Covered(ds: seq<Document>, answers: seq<SessionDigest>): (n: nat)
    ensures n <= |ds|
  {
    if ds == [] || LastFor(answers, ds[0].sessionId).None? then 0 else 1 + Covered(ds[1..], answers)
  }

  function WithDigest(d: Document, a: DigestAnswer): Document {
    match LastFor(a.sessions, d.sessionId)
    case None => d
    case Some(g) =>
      d.(digest := g, digestAlgorithm := if d.digestAlgorithm == "" then a.algorithm else d.digestAlgorithm)
  }

  /** The answer applied to the first n documents, and to the job when there is at least one. */
  function WithDigests(j: Job, a: DigestAnswer, n: nat): Job {
    var ds := j.documents;
    var j' := j.(documents := seq(|ds|, i requires 0 <= i < |ds| => if i < n then WithDigest(ds[i], a) else ds[i]));
    if n == 0 then j'
    else
      j'.(signAlgo := if j.signAlgo == "" then a.signatureAlgorithm else j.signAlgo,
          digestsSummary := if j.digestsSummary == "" then a.summary else j.digestsSummary,
          digestsSummaryAlgo := if j.digestsSummary == "" then a.algorithm else j.digestsSummaryAlgo)
  }

  function Sessions(ds: seq<Document>): seq<string> {
    seq(|ds|, i requires 0 <= i < |ds| => ds[i].sessionId)
  }

  /** calculateDigests. */
  function CalculateDigests(j: Job, certificate: string, answer: Option<DigestAnswer>): Outcome {
    if j.documents == [] || answer.None? then Outcome(j, false, [])
    else
      var ds, a := j.documents, answer.value;
      var n := Covered(ds, a.sessions);
      var pades := ds[0].format.Pades?;
      Outcome(WithDigests(j, a, n), n == |ds|,
              [Calculated(j, certificate, Sessions(ds), pades, !pades && ds[0].operation.Create?, a)])
  }

  // ---- TrustedX ----

  /** The signature authorization: the consent URL binds the job's digests summary. */
  function BeginConsent(j: Job, digests: Option<DigestAnswer>, state: Option<string>): Outcome {
    var c := CalculateDigests(j, j.signingCert, digests);
    if !c.ok || state.None? then c.(ok := false)
    else
      var j' := c.job.(oauthState := state.value, pendingLeg := SignLeg);
      Outcome(j', true,
              c.events + [Consent(j', j'.oauthState, j'.signIdentityId, j'.digestsSummary, j'.digestsSummaryAlgo)])
  }

  /** txFlow.BeginAuthorization. */
  function BeginTrustedX(j: Job, ans: Answers): Outcome {
    if j.signIdentityId != "" && j.signingCert != "" && j.authCert != "" then
      BeginConsent(j, ans.digests, ans.state)
    else if ans.state.None? then Outcome(j, false, [])
    else Outcome(j.(oauthState := ans.state.value, pendingLeg := ProfileLeg), true, [])
  }

  /** How a callback leg ends: refused, another redirect, or authorization complete. */
  datatype Verdict = Refusal | Redirect | Done

  datatype Advance = Advance(job: Job, verdict: Verdict, events: seq<Event>)

  /** txFlow.advanceProfile: a certificate that could not be fetched is left empty. */
  function AdvanceProfile(j: Job, ans: Answers): Advance {
    if ans.token.None? then Advance(j, Refusal, [])
    else
      var j1 := j.(profileToken := ans.token.value.access);
      if ans.identities.None? then Advance(j1, Refusal, [])
      else
        var a := TakeIdentity(j1, ans.identities.value, ans);
        a.(events := [IdentityInfo(j1, ans.identities.value)] + a.events)
  }

  /** advanceProfile once the identities are read. */
  function TakeIdentity(j: Job, ids: Identities, ans: Answers): Advance {
    if ids.signing.None? then Advance(j, Refusal, [])
    else
      var j2 := j.(signIdentityId := ids.signing.value,
                   signingCert := if ids.signingCert.None? then "" else ids.signingCert.value);
      if ids.signingCert.None? || !ids.authSelected then Advance(j2, Refusal, [])
      else
        var j3 := j2.(authCert := if ids.authCert.None? then "" else ids.authCert.value);
        if ids.authCert.None? then Advance(j3, Refusal, [])
        else
          var c := BeginConsent(j3, ans.digests, ans.state);
          Advance(c.job, if c.ok then Redirect else Refusal, c.events)
  }

  /** txFlow.AdvanceCallback. */
  function AdvanceTrustedX(j: Job, ans: Answers): Advance {
    match j.pendingLeg
    case ProfileLeg => AdvanceProfile(j, ans)
    case SignLeg =>
      if ans.token.None? then Advance(j, Refusal, [])
      else Advance(j.(signingToken := ans.token.value.access, pendingLeg := NoLeg), Done, [])
    case _ => Advance(j, Refusal, [])
  }

  // ---- CSC ----

  /** cscFlow.BeginAuthorization: a fresh state and PKCE pair, then the pushed credential registration. */
  function BeginCsc(j: Job, ans: Answers): Outcome {
    if ans.state.None? || ans.pkce.None? then Outcome(j, false, [])
    else Outcome(j.(oauthState := ans.state.value, pkceVerifier := ans.pkce.value, pendingLeg := CredentialLeg),
                 ans.pushed, [])
  }

  /** The algorithm of one digest, by its length alone. */
  function HashOf(digest: seq<Byte>): HashAlgorithm {
    if |digest| == 32 then Sha256 else if |digest| == 48 then Sha384 else if |digest| == 64 then Sha512 else NoHash
  }

  ghost predicate Fits(hash: HashAlgorithm, digests: seq<seq<Byte>>) {
    && !hash.NoHash?
    && forall i :: 0 <= i < |digests| ==>
         |digests[i]| == match hash case Sha256 => 32 case Sha384 => 48 case Sha512 => 64 case NoHash => 0
  }

  /** digestAlgorithmOID: the one algorithm every digest's length names; None for an empty or mixed batch. */
  function BatchHash(digests: seq<seq<Byte>>): Option<HashAlgorithm> {
    if digests == [] || HashOf(digests[0]).NoHash? then None
    else if |digests| == 1 then Some(HashOf(digests[0]))
    else if BatchHash(digests[1..]) == Some(HashOf(digests[0])) then Some(HashOf(digests[0]))
    else None
  }

  lemma {:induction false} BatchHashFits(digests: seq<seq<Byte>>, hash: HashAlgorithm)
    ensures BatchHash(digests) == Some(hash) <==> digests != [] && Fits(hash, digests)
  {
    if |digests| > 1 {
      BatchHashFits(digests[1..], hash);
      if digests != [] && Fits(hash, digests) {
        assert |digests[0]| == hash.DigestLength();
        assert forall i :: 0 <= i < |digests| - 1 ==> digests[1..][i] == digests[i + 1];
      }
      if BatchHash(digests) == Some(hash) {
        assert forall i :: 1 <= i < |digests| ==> digests[1..][i - 1] == digests[i];
      }
    }
  }

  /** cscFlow.advanceCredential, from the token on. */
  function AdvanceCredential(j: Job, token: Token, ans: Answers): Advance {
    if token.credentialId == "" || ans.credential.None? then Advance(j, Refusal, [])
    else
      var cred := ans.credential.value;
      var info := CredentialInfo(j, token.credentialId, cred.credentialId, cred.leaf);
      if !cred.maySign || cred.leaf.None? then Advance(j, Refusal, [info])
      else
        var j1 := j.(credentialId := cred.credentialId, signingCert := cred.leaf.value);
        var c := CalculateDigests(j1, j1.signingCert, ans.digests);
        var digests := Digests(c.job.documents);
        if !c.ok || digests.None? then Advance(c.job, Refusal, [info] + c.events)
        else
          var a := RequestSignature(c.job, digests.value, cred, ans);
          Advance(a.job, a.verdict, [info] + c.events + a.events)
  }

  /** The end of advanceCredential: the signature authorization for the digests the job now has. */
  function RequestSignature(j: Job, digests: seq<seq<Byte>>, cred: Credential, ans: Answers): Advance {
    var hash := BatchHash(digests);
    if hash.None? || hash.value !in cred.signAlgo then Advance(j, Refusal, [])
    else
      var j2 := j.(hashAlgorithm := hash.value, signAlgo := cred.signAlgo[hash.value]);
      if ans.state.None? || ans.pkce.None? then Advance(j2, Refusal, [])
      else
        var j3 := j2.(oauthState := ans.state.value, pkceVerifier := ans.pkce.value, pendingLeg := SignLeg);
        Advance(j3, if ans.pushed then Redirect else Refusal,
                [Pushed(j3, j3.oauthState, j3.credentialId, digests, j3.hashAlgorithm, ans.pushed)])
  }

  /** cscFlow.AdvanceCallback: the signing authorization must be bound to exactly this job's digests. */
  function AdvanceCsc(j: Job, ans: Answers): Advance {
    var j0 := j.(pkceVerifier := "");
    if ans.token.None? then Advance(j0, Refusal, [])
    else
      match j.pendingLeg
      case CredentialLeg => AdvanceCredential(j0, ans.token.value, ans)
      case SignLeg =>
        var digests := Digests(j0.documents);
        if ans.authorized.None? || digests.None?
           || ans.authorized.value != Authorized(j0.credentialId, digests.value) then Advance(j0, Refusal, [])
        else
          var j1 := j0.(signingToken := ans.token.value.access, pendingLeg := NoLeg);
          Advance(j1, Done, [Bound(j1, j1.credentialId, digests.value)])
      case _ => Advance(j0, Refusal, [])
  }

  /** flow.AdvanceCallback; the client-side flows have none. */
  function AdvanceCallback(j: Job, ans: Answers): Advance {
    if j.flow.IsTrustedX() then AdvanceTrustedX(j, ans)
    else if j.flow.IsCsc() then AdvanceCsc(j, ans)
    else Advance(j, Refusal, [])
  }

  // ---- Prepare ----

  datatype InputDocument = InputDocument(documentId: string, format: Format, operation: Jobs.Operation,
                                         digestAlgorithm: string)

  datatype PrepareInput = PrepareInput(
    flow: Flow, signingCert: string, authCert: string, signIdentityId: string, documents: seq<InputDocument>)

  /** validateBatch: at least one document, one only for eidScan, one format throughout. */
  predicate ValidBatch(input: PrepareInput) {
    && input.documents != []
    && (|input.documents| > 1 ==> !input.flow.EidScan?)
    && forall i :: 0 <= i < |input.documents| ==> input.documents[i].format == input.documents[0].format
  }

  /** What Prepare refuses before it creates anything. */
  predicate Admitted(cfg: Config, input: PrepareInput) {
    && input.flow.Registered()
    && ValidBatch(input)
    && Offered(cfg, input.flow)
    && (input.flow.IsCsc() ==> CertificateFor(cfg, input.flow, input.authCert).Available())
  }

  function NewDocument(d: InputDocument): Document {
    Document(d.documentId, d.format, d.operation, "", "", d.digestAlgorithm, "", DocPending, None)
  }

  function NewJob(id: string, input: PrepareInput): Job {
    var ds := input.documents;
    Job(id, input.flow, Preparing, "", NoHash, "", "",
        seq(|ds|, i requires 0 <= i < |ds| => NewDocument(ds[i])), "", NoLeg, "", "", "", "", "", "", "", "", None)
  }

  /** How many leading documents got a session and were uploaded. */
  function UploadedCount(answers: seq<SessionAnswer>, n: nat): (k: nat)
    ensures k <= n
  {
    if n == 0 || answers == [] || !answers[0].Uploaded? then 0 else 1 + UploadedCount(answers[1..], n - 1)
  }

  /** createSessionsAndUpload: stops at the first document that could not be uploaded. */
  function CreateSessions(j: Job, answers: seq<SessionAnswer>): Outcome {
    var ds, n := j.documents, UploadedCount(answers, |j.documents|);
    Outcome(
      j.(documents := seq(|ds|, i requires 0 <= i < |ds| =>
           if i <= n && i < |answers| && !answers[i].NoSession? then ds[i].(sessionId := answers[i].sessionId)
           else ds[i])),
      n == |ds|, [])
  }

  /** The flow-specific half of Prepare, on a job whose documents are uploaded. */
  function Begin(j: Job, input: PrepareInput, ans: Answers): Outcome {
    if input.flow.IsClientSide() then
      var j1 := j.(signingCert := input.signingCert, authCert := input.authCert);
      var c := CalculateDigests(j1, input.signingCert, ans.digests);
      if !c.ok then c.(job := FailedWith(c.job, "signapi:calculate_digest_failed"))
      else c.(job := Transitioned(c.job, AwaitingClientSignature))
    else
      var supplied := input.signIdentityId != "" && input.signingCert != "" && input.authCert != "";
      var j1 :=
        if input.flow.IsCsc() then j.(authCert := input.authCert)
        else if supplied then
          j.(signIdentityId := input.signIdentityId, signingCert := input.signingCert, authCert := input.authCert)
        else j;
      var b := if input.flow.IsCsc() then BeginCsc(j1, ans) else BeginTrustedX(j1, ans);
      if !b.ok then b.(job := FailedWith(b.job, "signing:begin_authorization_failed"))
      else b.(job := Transitioned(b.job, AwaitingAuthorization))
  }

  /** Prepare, for an admitted request: the job as it is saved. */
  function Prepared(id: string, input: PrepareInput, ans: Answers): Outcome {
    var c := CreateSessions(NewJob(id, input), ans.sessions);
    if !c.ok then c.(job := FailedWith(c.job, "signapi:upload_failed")) else Begin(c.job, input, ans)
  }

  // ---- SubmitSignatures ----

  datatype Submitted = Submitted(documentId: string, signatureValue: string)

  /** Every submitted value put on the first document with its id; None when one names no document. */
  function Attached(ds: seq<Document>, sigs: seq<Submitted>): Option<seq<Document>> {
    if sigs == [] then Some(ds)
    else
      var last := sigs[|sigs| - 1];
      match Attached(ds, sigs[..|sigs| - 1])
      case None => None
      case Some(ds') =>
        match DocIndex(ds', last.documentId)
        case None => None
        case Some(k) => if k < |ds'| then Some(ds'[k := ds'[k].(signatureValue := last.signatureValue)]) else None
  }

  function Ids(ds: seq<Document>): set<string> { set d | d in ds :: d.documentId }

  function SubmittedIds(sigs: seq<Submitted>): set<string> { set s | s in sigs :: s.documentId }

  /** SubmitSignatures on a loaded job: the job it saves, or None for every refusal. */
  function Submit(cfg: Config, j: Job, sigs: seq<Submitted>): Option<Job> {
    if !j.flow.IsClientSide() || !Offered(cfg, j.flow) || !j.state.AwaitingClientSignature? then None
    else
      match Attached(j.documents, sigs)
      case None => None
      case Some(ds) =>
        if Ids(j.documents) - SubmittedIds(sigs) != {} then None
        else Some(Transitioned(j.(documents := ds), Finalizing))
  }

  // ---- Sign ----

  /** The leading values of a signHash answer that VerifySignature accepts, for at most n documents. */
  function AcceptedPrefix(returned: seq<Option<seq<Byte>>>, verified: seq<bool>, n: nat): (r: seq<seq<Byte>>)
    ensures |r| <= n
  {
    if n == 0 || returned == [] || returned[0].None? || verified == [] || !verified[0] then []
    else [returned[0].value] + AcceptedPrefix(returned[1..], verified[1..], n - 1)
  }

  /** The VerifySignature calls: each value over its own digest, up to the first that is missing or not accepted. */
  function Checks(j: Job, digests: seq<seq<Byte>>, returned: seq<Option<seq<Byte>>>, verified: seq<bool>): seq<Event> {
    if digests == [] || returned == [] || returned[0].None? then []
    else
      var ok := verified != [] && verified[0];
      [Checked(j, j.signingCert, j.signAlgo, j.hashAlgorithm, digests[0], returned[0].value, ok)]
      + if ok then Checks(j, digests[1..], returned[1..], verified[1..]) else []
  }

  /** The k-th value accepted was checked over the k-th digest, with the job's certificate and algorithms. */
  lemma {:induction false} ChecksAt(j: Job, digests: seq<seq<Byte>>, returned: seq<Option<seq<Byte>>>,
                                    verified: seq<bool>, k: nat)
    requires k < |AcceptedPrefix(returned, verified, |digests|)|
    ensures k < |digests| && k < |returned| && returned[k] == Some(AcceptedPrefix(returned, verified, |digests|)[k])
    ensures Checked(j, j.signingCert, j.signAlgo, j.hashAlgorithm, digests[k],
                    AcceptedPrefix(returned, verified, |digests|)[k], true)
      in Checks(j, digests, returned, verified)
  {
    if k > 0 { ChecksAt(j, digests[1..], returned[1..], verified[1..], k - 1); }
  }

  /** The given values put on the leading documents. */
  function WithSignatures(ds: seq<Document>, values: seq<string>): seq<Document> {
    seq(|ds|, i requires 0 <= i < |ds| => if i < |values| then ds[i].(signatureValue := values[i]) else ds[i])
  }

  function Encoded(values: seq<seq<Byte>>): seq<string> {
    seq(|values|, i requires 0 <= i < |values| => Base64.Encode(values[i]))
  }

  /** cscFlow.Sign: one signHash, then every value verified before it goes anywhere. */
  function SignCsc(j: Job, ans: SignAnswers): Outcome {
    var digests := Digests(j.documents);
    if digests.None? || !ans.certParses then Outcome(j, false, [])
    else
      var returned := if ans.hashes.None? then [] else ans.hashes.value;
      var accepted := AcceptedPrefix(returned, ans.verified, |j.documents|);
      Outcome(
        j.(signingToken := "", documents := WithSignatures(j.documents, Encoded(accepted))),
        ans.hashes.Some? && |accepted| == |j.documents|,
        [SignHash(j, j.credentialId, digests.value, j.hashAlgorithm, j.signAlgo, ans.hashes)]
        + Checks(j, digests.value, returned, ans.verified))
  }

  lemma {:induction false} OnlyChecks(j: Job, digests: seq<seq<Byte>>, returned: seq<Option<seq<Byte>>>,
                                      verified: seq<bool>)
    ensures forall e :: e in Checks(j, digests, returned, verified) ==>
      e.Checked? && e.job == j && e.certificate == j.signingCert && e.algo == j.signAlgo && e.hash == j.hashAlgorithm
  {
    if digests != [] && returned != [] && returned[0].Some? && verified != [] && verified[0] {
      OnlyChecks(j, digests[1..], returned[1..], verified[1..]);
    }
  }

  lemma SignCscCalls(j: Job, ans: SignAnswers)
    ensures
      var events := SignCsc(j, ans).events;
      && (forall e :: e in events ==> (e.SignHash? || e.Checked?) && e.job == j)
      && (forall e :: e in events && e.Checked? ==>
            e.certificate == j.signingCert && e.algo == j.signAlgo && e.hash == j.hashAlgorithm)
      && (forall i :: 1 <= i < |events| ==> events[i].Checked?)
  {
    var digests := Digests(j.documents);
    if digests.Some? { OnlyChecks(j, digests.value, if ans.hashes.None? then [] else ans.hashes.value, ans.verified); }
  }

  function DigestTexts(ds: seq<Document>): seq<string> {
    seq(|ds|, i requires 0 <= i < |ds| => ds[i].digest)
  }

  /** signServerBatch. */
  function SignServer(j: Job, ans: SignAnswers): Outcome {
    var ok := ans.raw.Some? && |ans.raw.value| == |j.documents|;
    Outcome(
      if ok then j.(documents := WithSignatures(j.documents, ans.raw.value)) else j, ok,
      [ServerRaw(j, j.signIdentityId, DigestTexts(j.documents), j.signAlgo, if ok then ans.raw.value else [])])
  }

  /** signDevice before the push: the code goes on the job, to be saved first. */
  function PublishCode(j: Job, ans: SignAnswers): Outcome {
    if |j.documents| != 1 || ans.code.None? then Outcome(j, false, [])
    else Outcome(j.(verificationCode := ans.code.value), true, [])
  }

  /** signDevice from the push on: the code pushed is the one on the job. */
  function PushDevice(j: Job, ans: SignAnswers): Outcome {
    if |j.documents| != 1 then Outcome(j, false, [])
    else
      var value := if ans.device.None? then None else ans.device.value;
      Outcome(
        if value.None? then j else j.(documents := WithSignatures(j.documents, [value.value])), value.Some?,
        [DevicePush(j, j.signIdentityId, j.documents[0].digest, j.verificationCode, value)])
  }

  // ---- finalize ----

  /** The finalize request: every document's session with its value as DER; None when one is not a signature. */
  function Entries(ds: seq<Document>): Option<seq<Entry>> {
    if ds == [] then Some([])
    else
      match (Ecdsa.NormalizeText(ds[0].signatureValue), Entries(ds[1..]))
      case (Some((der, _)), Some(rest)) => Some([Entry(ds[0].sessionId, der)] + rest)
      case _ => None
  }

  function ReadyDocuments(ds: seq<Document>): seq<Document> {
    seq(|ds|, i requires 0 <= i < |ds| => ds[i].(state := DocReady, signatureValue := ""))
  }

  /** finalize: the timestamp certificate first, then every value, then one request. */
  function Finalized(cfg: Config, j: Job, accepted: bool): Outcome {
    var cert := CertificateFor(cfg, j.flow, j.authCert);
    if !cert.Available() then Outcome(j, false, [Event.Refused(j, SignOp)])
    else
      var requested := Requested(j, cert.source, SignOp);
      match Entries(j.documents)
      case None => Outcome(j, false, [requested])
      case Some(entries) =>
        Outcome(if accepted then Transitioned(j.(documents := ReadyDocuments(j.documents)), Ready) else j, accepted,
                [requested, Finalize(j, entries, cert.text, accepted)])
  }

  lemma {:induction false} EntriesAt(ds: seq<Document>, k: nat)
    requires Entries(ds).Some? && k < |ds|
    ensures |Entries(ds).value| == |ds| && Entries(ds).value[k].sessionId == ds[k].sessionId
    ensures Ecdsa.NormalizeText(ds[k].signatureValue).Some?
    ensures Entries(ds).value[k].signatureValue == Ecdsa.NormalizeText(ds[k].signatureValue).value.0
  {
    EntriesHead(ds);
    if k > 0 {
      EntriesAt(ds[1..], k - 1);
    } else if |ds| > 1 {
      EntriesAt(ds[1..], 0);
    }
  }

  lemma {:induction false} EntriesHead(ds: seq<Document>)
    requires Entries(ds).Some? && ds != []
    ensures Ecdsa.NormalizeText(ds[0].signatureValue).Some? && Entries(ds[1..]).Some?
    ensures Entries(ds).value
      == [Entry(ds[0].sessionId, Ecdsa.NormalizeText(ds[0].signatureValue).value.0)] + Entries(ds[1..]).value
  {
  }

  lemma {:induction false} EntriesIff(ds: seq<Document>)
    ensures Entries(ds).Some? <==> forall k :: 0 <= k < |ds| ==> Ecdsa.NormalizeText(ds[k].signatureValue).Some?
  {
    if ds != [] {
      EntriesIff(ds[1..]);
      assert forall k :: 1 <= k < |ds| ==> ds[k] == ds[1..][k - 1];
    }
  }

  ghost predicate AllSignatures(ds: seq<Document>) {
    forall k :: 0 <= k < |ds| ==> Ecdsa.NormalizeText(ds[k].signatureValue).Some?
  }

  /** What finalize comes to with the given certificate, spelled out. */
  ghost predicate FinalizedWith(cfg: Config, j: Job, accepted: bool, certificate: string, o: Outcome) {
    var requested := Requested(j, if cfg.accessCertFlows.Has(j.flow) then Deployment else Signer, SignOp);
    if certificate == "" then o == Outcome(j, false, [Event.Refused(j, SignOp)])
    else if !AllSignatures(j.documents) then o == Outcome(j, false, [requested])
    else
      && |o.events| == 2 && o.events[0] == requested && FinalizeSent(j, accepted, certificate, o.events[1])
      && o.ok == accepted && (o.job == if accepted then MadeReady(j, o.job.documents) else j)
      && (accepted ==> |o.job.documents| == |j.documents| && forall k :: 0 <= k < |j.documents| ==>
            o.job.documents[k] == j.documents[k].(state := DocReady, signatureValue := ""))
  }

  /** The request: document k's session with the DER of document k's value. */
  ghost predicate FinalizeSent(j: Job, accepted: bool, certificate: string, c: Event) {
    && c.Finalize? && c.job == j && c.certificate == certificate && c.taken == accepted
    && |c.entries| == |j.documents|
    && forall k :: 0 <= k < |j.documents| ==>
         && c.entries[k].sessionId == j.documents[k].sessionId
         && Ecdsa.NormalizeText(j.documents[k].signatureValue).Some?
         && c.entries[k].signatureValue == Ecdsa.NormalizeText(j.documents[k].signatureValue).value.0
  }

  function MadeReady(j: Job, ds: seq<Document>): Job {
    j.(documents := ds, state := if j.state.Finalizing? then Ready else j.state)
  }

  /**
   finalize: refused exactly when the certificate is empty; asked for and not sent exactly when a
   value is no signature; otherwise one request, and all documents READY and cleared if it is taken.
   */
  lemma FinalizedMeans(cfg: Config, j: Job, accepted: bool, certificate: string)
    requires Stands(cfg, j.flow, j.authCert, certificate)
    ensures FinalizedWith(cfg, j, accepted, certificate, Finalized(cfg, j, accepted))
  {
    CertificateExactly(cfg, j.flow, j.authCert);
    EntriesIff(j.documents);
    if certificate != "" && Entries(j.documents).Some? {
      RequestMeans(j, accepted, certificate, Entries(j.documents).value);
      ReadyMeans(j);
      TakenMeans(cfg, j, accepted, certificate);
    }
  }

  lemma TakenMeans(cfg: Config, j: Job, accepted: bool, certificate: string)
    requires CertificateFor(cfg, j.flow, j.authCert).text == certificate != ""
    requires Entries(j.documents).Some?
    ensures
      var o := Finalized(cfg, j, accepted);
      && o.events == [Requested(j, CertificateFor(cfg, j.flow, j.authCert).source, SignOp),
                      Finalize(j, Entries(j.documents).value, certificate, accepted)]
      && o.ok == accepted && (o.job == if accepted then MadeReady(j, ReadyDocuments(j.documents)) else j)
  {
  }

  lemma ReadyMeans(j: Job)
    ensures
      var ds := ReadyDocuments(j.documents);
      && |ds| == |j.documents|
      && forall k :: 0 <= k < |ds| ==> ds[k] == j.documents[k].(state := DocReady, signatureValue := "")
  {
  }

  lemma {:induction false} RequestMeans(j: Job, accepted: bool, certificate: string, entries: seq<Entry>)
    requires Entries(j.documents) == Some(entries)
    ensures FinalizeSent(j, accepted, certificate, Finalize(j, entries, certificate, accepted))
  {
    if j.documents != [] { EntriesAt(j.documents, 0); }
    forall k | 0 <= k < |j.documents|
      ensures entries[k].sessionId == j.documents[k].sessionId
      ensures Ecdsa.NormalizeText(j.documents[k].signatureValue).Some?
      ensures entries[k].signatureValue == Ecdsa.NormalizeText(j.documents[k].signatureValue).value.0
    {
      EntriesAt(j.documents, k);
    }
  }
}
