/**
 What each handler comes to, spelled out condition by condition and field by field: when Prepare
 and Callback succeed, what the stored job then is, and when a job reaches SIGNING and the queue.
 */
module Outcomes {
  import opened Wrappers
  import opened Bytes
  import opened Jobs
  import opened Upstream
  import opened AuthCert
  import opened Flows
  import opened Machine
  import opened Copies
  import opened Shape
  import Base64

  // ---- Failing ----

  /** The same job, failed with the code: READY documents stay as they are, the others keep their first error. */
  ghost predicate FailedAs(j: Job, j': Job, code: string) {
    && j' == j.(state := State.Failed, err := Some(code), documents := j'.documents)
    && |j'.documents| == |j.documents|
    && forall k :: 0 <= k < |j.documents| ==>
         j'.documents[k] ==
         if j.documents[k].state.DocReady? then j.documents[k]
         else if j.documents[k].error.Some? then j.documents[k].(state := DocFailed)
         else j.documents[k].(state := DocFailed, error := Some(code))
  }

  // ---- CalculateDigest ----

  /** Every document has a digest in the answer. */
  ghost predicate Covers(answer: Option<DigestAnswer>, ds: seq<Document>) {
    && ds != [] && answer.Some?
    && forall k :: 0 <= k < |ds| ==> Mentions(answer.value, ds[k].sessionId)
  }

  ghost predicate Mentions(a: DigestAnswer, sessionId: string) {
    exists i :: 0 <= i < |a.sessions| && a.sessions[i].sessionId == sessionId
  }

  /** The last digest answered for each session on its document, and what the job had not got yet. */
  ghost predicate Applied(j: Job, a: DigestAnswer, j': Job) {
    && j' == j.(documents := j'.documents, signAlgo := j'.signAlgo, digestsSummary := j'.digestsSummary,
                digestsSummaryAlgo := j'.digestsSummaryAlgo)
    && j'.signAlgo == (if j.signAlgo == "" then a.signatureAlgorithm else j.signAlgo)
    && j'.digestsSummary == (if j.digestsSummary == "" then a.summary else j.digestsSummary)
    && j'.digestsSummaryAlgo == (if j.digestsSummary == "" then a.algorithm else j.digestsSummaryAlgo)
    && |j'.documents| == |j.documents|
    && forall k :: 0 <= k < |j.documents| ==> AppliedTo(j.documents[k], a, j'.documents[k])
  }

  ghost predicate AppliedTo(d: Document, a: DigestAnswer, d': Document) {
    && d' == d.(digest := d'.digest, digestAlgorithm := if d.digestAlgorithm == "" then a.algorithm
                                                        else d.digestAlgorithm)
    && exists i :: LastAt(a.sessions, d.sessionId, i) && a.sessions[i].digest == d'.digest
  }

  lemma {:induction false} MentionedIff(a: DigestAnswer, sessionId: string)
    ensures Mentions(a, sessionId) <==> LastFor(a.sessions, sessionId).Some?
  {
    LastForIs(a.sessions, sessionId);
    if LastFor(a.sessions, sessionId).Some? {
      var i :| LastAt(a.sessions, sessionId, i) && a.sessions[i].digest == LastFor(a.sessions, sessionId).value;
      assert a.sessions[i].sessionId == sessionId;
    }
  }

  lemma {:induction false} CoveredIff(ds: seq<Document>, a: DigestAnswer)
    ensures Covered(ds, a.sessions) == |ds| <==> forall k :: 0 <= k < |ds| ==> Mentions(a, ds[k].sessionId)
  {
    if ds != [] {
      CoveredIff(ds[1..], a);
      MentionedIff(a, ds[0].sessionId);
      assert forall k :: 1 <= k < |ds| ==> ds[k] == ds[1..][k - 1];
    }
  }

  lemma DigestIsLast(d: Document, a: DigestAnswer)
    requires Mentions(a, d.sessionId)
    ensures AppliedTo(d, a, WithDigest(d, a))
  {
    MentionedIff(a, d.sessionId);
    LastForIs(a.sessions, d.sessionId);
  }

  /** CalculateDigest succeeds exactly when the answer covers every document, and is then applied in full. */
  lemma CalculatedMeans(j: Job, certificate: string, answer: Option<DigestAnswer>)
    ensures
      var o := CalculateDigests(j, certificate, answer);
      && (o.ok <==> Covers(answer, j.documents))
      && (o.ok ==> Applied(j, answer.value, o.job))
  {
    var o := CalculateDigests(j, certificate, answer);
    if j.documents != [] && answer.Some? {
      CoveredIff(j.documents, answer.value);
      if o.ok {
        forall k | 0 <= k < |j.documents| ensures AppliedTo(j.documents[k], answer.value, o.job.documents[k]) {
          DigestIsLast(j.documents[k], answer.value);
        }
      }
    }
  }

  /** Every document up to the k-th has a digest in the answer. */
  ghost predicate MentionsUpTo(a: DigestAnswer, ds: seq<Document>, k: int)
    requires k < |ds|
  {
    forall i :: 0 <= i <= k ==> Mentions(a, ds[i].sessionId)
  }

  lemma {:induction false} CoveredUpTo(ds: seq<Document>, a: DigestAnswer, k: nat)
    requires k < |ds|
    ensures k < Covered(ds, a.sessions) <==> MentionsUpTo(a, ds, k)
  {
    MentionedIff(a, ds[0].sessionId);
    if k > 0 {
      CoveredUpTo(ds[1..], a, k - 1);
      assert forall i :: 1 <= i <= k ==> ds[i] == ds[1..][i - 1];
      assert forall i :: 0 <= i < k ==> ds[1..][i] == ds[i + 1];
    }
  }

  /** Where the answer ends early, it is applied up to the first document it does not cover. */
  lemma CalculatedInPart(j: Job, certificate: string, a: DigestAnswer, k: nat)
    requires k < |j.documents|
    ensures
      var j' := CalculateDigests(j, certificate, Some(a)).job;
      && |j'.documents| == |j.documents|
      && if MentionsUpTo(a, j.documents, k) then AppliedTo(j.documents[k], a, j'.documents[k])
         else j'.documents[k] == j.documents[k]
  {
    CoveredUpTo(j.documents, a, k);
    if MentionsUpTo(a, j.documents, k) {
      assert Mentions(a, j.documents[k].sessionId);
      DigestIsLast(j.documents[k], a);
    }
  }

  /** The digests consent: the answer applied, the new state, the signature leg. */
  ghost predicate Consenting(j: Job, ans: Answers, j': Job) {
    && Covers(ans.digests, j.documents) && ans.state.Some?
    && j'.oauthState == ans.state.value && j'.pendingLeg.SignLeg?
    && Applied(j, ans.digests.value, j'.(oauthState := j.oauthState, pendingLeg := j.pendingLeg))
  }

  lemma ConsentMeans(j: Job, ans: Answers)
    ensures
      var o := BeginConsent(j, ans.digests, ans.state);
      && (o.ok <==> Covers(ans.digests, j.documents) && ans.state.Some?)
      && (o.ok ==> Consenting(j, ans, o.job))
  {
    CalculatedMeans(j, j.signingCert, ans.digests);
    var o := BeginConsent(j, ans.digests, ans.state);
    if o.ok {
      var c := CalculateDigests(j, j.signingCert, ans.digests).job;
      assert o.job.(oauthState := j.oauthState, pendingLeg := j.pendingLeg) == c;
    }
  }

  // ---- Callback, leg by leg ----

  /** The profile leg: a token, a signing identity with its certificate, an authentication one with its, and digests. */
  ghost predicate Identifies(j: Job, ans: Answers) {
    && j.flow.IsTrustedX() && j.pendingLeg.ProfileLeg? && ans.token.Some? && ans.identities.Some?
    && ans.identities.value.signing.Some? && ans.identities.value.signingCert.Some?
    && ans.identities.value.authSelected && ans.identities.value.authCert.Some?
    && Covers(ans.digests, j.documents) && ans.state.Some?
  }

  /** The profile leg redirects exactly then, with the answered identity, certificates and token on the job. */
  lemma ProfileMeans(j: Job, ans: Answers)
    requires j.flow.IsTrustedX() && j.pendingLeg.ProfileLeg?
    ensures
      var a := AdvanceProfile(j, ans);
      && (a.verdict.Redirect? <==> Identifies(j, ans)) && !a.verdict.Done?
      && (Identifies(j, ans) ==>
            var ids := ans.identities.value;
            Consenting(j.(profileToken := ans.token.value.access, signIdentityId := ids.signing.value,
                          signingCert := ids.signingCert.value, authCert := ids.authCert.value), ans, a.job))
  {
    if ans.token.Some? && ans.identities.Some? {
      var ids := ans.identities.value;
      if ids.signing.Some? && ids.signingCert.Some? && ids.authCert.Some? {
        ConsentMeans(j.(profileToken := ans.token.value.access, signIdentityId := ids.signing.value,
                        signingCert := ids.signingCert.value, authCert := ids.authCert.value), ans);
      }
    }
  }

  /** The digest last answered for the session, decoded. */
  ghost predicate Decoded(a: DigestAnswer, sessionId: string, digest: seq<Byte>) {
    exists i :: LastAt(a.sessions, sessionId, i) && Base64.Decode(a.sessions[i].digest) == Some(digest)
  }

  /**
   The credential leg: a named credential that may sign and has a certificate, digests for every
   document, one hash algorithm that fits them all and that the credential can sign, and a push taken.
   */
  ghost predicate Registers(j: Job, ans: Answers, digests: seq<seq<Byte>>, hash: HashAlgorithm) {
    && j.flow.IsCsc() && j.pendingLeg.CredentialLeg? && ans.token.Some? && ans.token.value.credentialId != ""
    && ans.credential.Some? && ans.credential.value.maySign && ans.credential.value.leaf.Some?
    && Covers(ans.digests, j.documents) && |digests| == |j.documents|
    && (forall k :: 0 <= k < |digests| ==> Decoded(ans.digests.value, j.documents[k].sessionId, digests[k]))
    && Fits(hash, digests) && hash in ans.credential.value.signAlgo
    && ans.state.Some? && ans.pkce.Some? && ans.pushed
  }

  /** The job it then leaves: the credential, its certificate and its algorithm, the digests, the next leg. */
  ghost predicate Registered(j: Job, ans: Answers, hash: HashAlgorithm, j': Job)
    requires ans.credential.Some? && ans.credential.value.leaf.Some? && hash in ans.credential.value.signAlgo
    requires ans.state.Some? && ans.pkce.Some? && ans.digests.Some?
  {
    && j' == j.(credentialId := ans.credential.value.credentialId, signingCert := ans.credential.value.leaf.value,
                hashAlgorithm := hash, signAlgo := ans.credential.value.signAlgo[hash],
                oauthState := ans.state.value, pkceVerifier := ans.pkce.value, pendingLeg := SignLeg,
                documents := j'.documents, digestsSummary := j'.digestsSummary,
                digestsSummaryAlgo := j'.digestsSummaryAlgo)
    && |j'.documents| == |j.documents|
    && forall k :: 0 <= k < |j.documents| ==> AppliedTo(j.documents[k], ans.digests.value, j'.documents[k])
  }

  lemma {:induction false} DigestsIff(ds: seq<Document>, digests: seq<seq<Byte>>)
    ensures Digests(ds) == Some(digests) <==>
      |digests| == |ds| && forall k :: 0 <= k < |ds| ==> Base64.Decode(ds[k].digest) == Some(digests[k])
  {
    if ds != [] && digests != [] {
      DigestsIff(ds[1..], digests[1..]);
      assert digests == [digests[0]] + digests[1..];
      assert forall k :: 1 <= k < |ds| ==> ds[k] == ds[1..][k - 1];
      assert forall k :: 1 <= k < |digests| ==> digests[k] == digests[1..][k - 1];
    }
  }

  lemma DecodedIff(d: Document, a: DigestAnswer, d': Document, digest: seq<Byte>)
    requires AppliedTo(d, a, d')
    ensures Decoded(a, d.sessionId, digest) <==> Base64.Decode(d'.digest) == Some(digest)
  {
    var i :| LastAt(a.sessions, d.sessionId, i) && a.sessions[i].digest == d'.digest;
    if Decoded(a, d.sessionId, digest) {
      var k :| LastAt(a.sessions, d.sessionId, k) && Base64.Decode(a.sessions[k].digest) == Some(digest);
      assert i == k;
    }
  }

  /** The digests a job got from an answer are those answered, decoded. */
  lemma AppliedDigests(j: Job, a: DigestAnswer, j': Job, digests: seq<seq<Byte>>)
    requires Applied(j, a, j')
    ensures Digests(j'.documents) == Some(digests) <==>
      |digests| == |j.documents| && forall k :: 0 <= k < |digests| ==> Decoded(a, j.documents[k].sessionId, digests[k])
  {
    DigestsIff(j'.documents, digests);
    if |digests| == |j.documents| {
      forall k | 0 <= k < |digests|
        ensures Decoded(a, j.documents[k].sessionId, digests[k])
          <==> Base64.Decode(j'.documents[k].digest) == Some(digests[k])
      {
        DecodedIff(j.documents[k], a, j'.documents[k], digests[k]);
      }
    }
  }

  /** A job with the credential's certificate on it, ready for CalculateDigest. */
  function WithCredential(j: Job, cred: Credential): Job
    requires cred.leaf.Some?
  {
    j.(pkceVerifier := "", credentialId := cred.credentialId, signingCert := cred.leaf.value)
  }

  lemma RequestMeans(j: Job, digests: seq<seq<Byte>>, cred: Credential, ans: Answers)
    requires digests != []
    ensures
      var a := RequestSignature(j, digests, cred, ans);
      && !a.verdict.Done?
      && (forall hash :: Fits(hash, digests) && hash in cred.signAlgo && ans.state.Some? && ans.pkce.Some? && ans.pushed
            ==> a.verdict.Redirect?
                && a.job == j.(hashAlgorithm := hash, signAlgo := cred.signAlgo[hash], oauthState := ans.state.value,
                               pkceVerifier := ans.pkce.value, pendingLeg := SignLeg))
      && (a.verdict.Redirect? ==>
            && Fits(a.job.hashAlgorithm, digests) && a.job.hashAlgorithm in cred.signAlgo
            && ans.state.Some? && ans.pkce.Some? && ans.pushed)
  {
    forall hash ensures BatchHash(digests) == Some(hash) <==> Fits(hash, digests) { BatchHashFits(digests, hash); }
  }

  /** The credential leg as its three parts: the credential, the digests, the request. */
  lemma CredentialParts(j: Job, ans: Answers)
    requires j.flow.IsCsc() && j.pendingLeg.CredentialLeg?
    ensures
      var a := AdvanceCsc(j, ans);
      if ans.token.None? || ans.token.value.credentialId == "" || ans.credential.None? || !ans.credential.value.maySign
         || ans.credential.value.leaf.None? then a.verdict.Refusal?
      else
        var cred := ans.credential.value;
        var c := CalculateDigests(WithCredential(j, cred), cred.leaf.value, ans.digests);
        var digests := Digests(c.job.documents);
        if !c.ok || digests.None? then a.verdict.Refusal?
        else
          var r := RequestSignature(c.job, digests.value, cred, ans);
          a.verdict == r.verdict && a.job == r.job
  {
  }

  lemma CredentialRedirect(j: Job, ans: Answers) returns (digests: seq<seq<Byte>>)
    requires j.flow.IsCsc() && j.pendingLeg.CredentialLeg? && AdvanceCsc(j, ans).verdict.Redirect?
    ensures Registers(j, ans, digests, AdvanceCsc(j, ans).job.hashAlgorithm)
  {
    CredentialParts(j, ans);
    var cred := ans.credential.value;
    var j1 := WithCredential(j, cred);
    var c := CalculateDigests(j1, cred.leaf.value, ans.digests);
    digests := Digests(c.job.documents).value;
    CalculatedMeans(j1, cred.leaf.value, ans.digests);
    AppliedDigests(j1, ans.digests.value, c.job, digests);
    RequestMeans(c.job, digests, cred, ans);
  }

  lemma CredentialRegistered(j: Job, ans: Answers, digests: seq<seq<Byte>>, hash: HashAlgorithm)
    requires Registers(j, ans, digests, hash)
    ensures AdvanceCsc(j, ans).verdict.Redirect? && Registered(j, ans, hash, AdvanceCsc(j, ans).job)
  {
    CredentialParts(j, ans);
    var cred := ans.credential.value;
    var j1 := WithCredential(j, cred);
    var c := CalculateDigests(j1, cred.leaf.value, ans.digests);
    CalculatedMeans(j1, cred.leaf.value, ans.digests);
    AppliedDigests(j1, ans.digests.value, c.job, digests);
    RequestMeans(c.job, digests, cred, ans);
  }

  lemma CredentialNeverDone(j: Job, ans: Answers)
    requires j.flow.IsCsc() && j.pendingLeg.CredentialLeg?
    ensures !AdvanceCsc(j, ans).verdict.Done?
  {
    CallbackAdvances(j, ans);
  }

  ghost predicate CanRegister(j: Job, ans: Answers) {
    exists digests, hash :: Registers(j, ans, digests, hash)
  }

  /** The credential leg redirects exactly then, and leaves exactly that job. */
  lemma CredentialMeans(j: Job, ans: Answers)
    requires j.flow.IsCsc() && j.pendingLeg.CredentialLeg?
    ensures
      var a := AdvanceCsc(j, ans);
      && (a.verdict.Redirect? <==> CanRegister(j, ans)) && !a.verdict.Done?
      && (forall digests, hash :: Registers(j, ans, digests, hash) ==> Registered(j, ans, hash, a.job))
  {
    CredentialNeverDone(j, ans);
    if AdvanceCsc(j, ans).verdict.Redirect? { var digests := CredentialRedirect(j, ans); }
    forall digests, hash | Registers(j, ans, digests, hash)
      ensures AdvanceCsc(j, ans).verdict.Redirect? && Registered(j, ans, hash, AdvanceCsc(j, ans).job)
    {
      CredentialRegistered(j, ans, digests, hash);
    }
  }

  /**
   The signature leg completes: a token, and for CSC an authorization for the job's own credential
   and for exactly its digests, one by one.
   */
  ghost predicate Completes(j: Job, ans: Answers) {
    && j.pendingLeg.SignLeg? && ans.token.Some?
    && (j.flow.IsTrustedX() || (j.flow.IsCsc() && ans.authorized.Some? && Confirms(j, ans.authorized.value)))
  }

  ghost predicate Confirms(j: Job, au: Authorized) {
    && au.credentialId == j.credentialId && |au.digests| == |j.documents|
    && forall k :: 0 <= k < |j.documents| ==> Base64.Decode(j.documents[k].digest) == Some(au.digests[k])
  }

  lemma CompletesExactly(j: Job, ans: Answers)
    requires j.pendingLeg.SignLeg? && (j.flow.IsTrustedX() || j.flow.IsCsc())
    ensures
      var a := AdvanceCallback(j, ans);
      && a.verdict == (if Completes(j, ans) then Done else Refusal)
      && (Completes(j, ans) ==>
            a.job == j.(signingToken := ans.token.value.access, pendingLeg := NoLeg,
                        pkceVerifier := if j.flow.IsCsc() then "" else j.pkceVerifier))
  {
    if j.flow.IsCsc() && ans.authorized.Some? { DigestsIff(j.documents, ans.authorized.value.digests); }
  }

  ghost predicate Redirects(j: Job, ans: Answers) {
    Identifies(j, ans) || CanRegister(j, ans)
  }

  /** A callback that is not declined: done, redirected or refused, and exactly when. */
  lemma CallbackMeans(j: Job, ans: Answers)
    ensures AdvanceCallback(j, ans).verdict
      == if Completes(j, ans) then Done else if Redirects(j, ans) then Redirect else Refusal
  {
    if j.flow.IsTrustedX() && j.pendingLeg.ProfileLeg? {
      ProfileMeans(j, ans);
    } else if j.flow.IsCsc() && j.pendingLeg.CredentialLeg? {
      CredentialMeans(j, ans);
    } else if (j.flow.IsTrustedX() || j.flow.IsCsc()) && j.pendingLeg.SignLeg? {
      CompletesExactly(j, ans);
    }
  }

  // ---- Callback, as a step ----

  /** The callback's state leads to a stored job. */
  ghost predicate Finds(s: Sys, step: Step) {
    step.Callback? && step.state in s.index && s.index[step.state] in s.jobs
  }

  ghost function FoundJob(s: Sys, step: Step): Job
    requires Finds(s, step)
  {
    s.jobs[s.index[step.state]]
  }

  /** Only that job is written, if any, and only its id is queued, if any. */
  ghost predicate Touches(s: Sys, s': Sys, id: string, save: Save, queued: bool) {
    && s'.workers == s.workers
    && (if save.Written() then id in s'.jobs && s'.jobs == s.jobs[id := s'.jobs[id]] else s'.jobs == s.jobs)
    && s'.queue == if queued then s.queue + [id] else s.queue
  }

  lemma SettledTouches(s: Sys, e: Effect)
    requires e.Settles?
    ensures
      var s' := Effected(s, e);
      && Touches(s, s', e.after.jobId, e.save, e.enqueued)
      && (e.save.Written() ==> s'.jobs[e.after.jobId] == e.after)
      && s'.log == s.log + e.events + if e.enqueued then [Enqueue(e.after)] else []
  {
    SettledJobs(s, e);
    SettledQueue(s, e);
  }

  lemma SettledQueue(s: Sys, e: Effect)
    requires e.Settles?
    ensures
      var s' := Effected(s, e);
      && s'.workers == s.workers && s'.queue == (if e.enqueued then s.queue + [e.after.jobId] else s.queue)
      && s'.log == s.log + e.events + if e.enqueued then [Enqueue(e.after)] else []
  {
  }

  lemma FailedMeans(j: Job, code: string)
    ensures FailedAs(j, FailedWith(j, code), code)
  {
  }

  /**
   A declined callback: the job it finds is FAILED if its Save is written, nothing is asked of the
   provider and nothing is queued, whatever was answered.
   */
  lemma DeclinedFails(cfg: Config, s: Sys, step: Step)
    requires Shaped(s) && Finds(s, step) && step.declined
    ensures
      var (j, s') := (FoundJob(s, step), Next(cfg, s, step));
      && Touches(s, s', j.jobId, step.save, false) && s'.log == s.log
      && (step.save.Written() ==> FailedAs(j, s'.jobs[j.jobId], "signing:declined"))
  {
    var e := EffectOf(cfg, s, step);
    SettledTouches(s, e);
    FailedMeans(e.before, "signing:declined");
  }

  /** What a callback that is not declined makes of the job it finds. */
  ghost predicate CalledAs(j: Job, ans: Answers, j': Job) {
    if Completes(j, ans) then
      j' == j.(state := if j.state.AwaitingAuthorization? then Signing else j.state, pendingLeg := NoLeg,
               signingToken := ans.token.value.access,
               pkceVerifier := if j.flow.IsCsc() then "" else j.pkceVerifier)
    else if Identifies(j, ans) then
      var ids := ans.identities.value;
      Consenting(j.(profileToken := ans.token.value.access, signIdentityId := ids.signing.value,
                    signingCert := ids.signingCert.value, authCert := ids.authCert.value), ans, j')
    else if CanRegister(j, ans) then
      forall digests, hash :: Registers(j, ans, digests, hash) ==> Registered(j, ans, hash, j')
    else
      && j'.state.Failed? && j'.err == Some("signing:callback_failed") && j'.jobId == j.jobId && j'.flow == j.flow
      && j'.signingToken == j.signingToken
      && (j.flow.IsCsc() ==> j'.pkceVerifier == "" || ans.pkce == Some(j'.pkceVerifier))
  }

  /** A refused callback yields no signing token, and the PKCE verifier it spent is gone. */
  lemma RefusedKeeps(j: Job, ans: Answers)
    requires AdvanceCallback(j, ans).verdict.Refusal?
    ensures
      var j' := AdvanceCallback(j, ans).job;
      && j'.signingToken == j.signingToken
      && (j.flow.IsCsc() ==> j'.pkceVerifier == "" || ans.pkce == Some(j'.pkceVerifier))
  {
    if j.flow.IsCsc() && j.pendingLeg.CredentialLeg? && ans.token.Some? {
      CredentialKeepsToken(j.(pkceVerifier := ""), ans.token.value, ans);
    } else if j.flow.IsTrustedX() && j.pendingLeg.ProfileLeg? {
      ProfileKeepsToken(j, ans);
    }
  }

  lemma CredentialKeepsToken(j: Job, token: Token, ans: Answers)
    ensures
      var j' := AdvanceCredential(j, token, ans).job;
      j'.signingToken == j.signingToken && (j'.pkceVerifier == j.pkceVerifier || ans.pkce == Some(j'.pkceVerifier))
  {
  }

  lemma ProfileKeepsToken(j: Job, ans: Answers)
    ensures AdvanceProfile(j, ans).job.signingToken == j.signingToken
  {
  }

  lemma CalledBackMeans(j: Job, ans: Answers)
    requires WellFormed(j)
    ensures
      var a := CalledBack(j, false, ans);
      a.verdict == AdvanceCallback(j, ans).verdict && CalledAs(j, ans, a.job)
  {
    CallbackMeans(j, ans);
    CalledBackIsWellFormed(j, false, ans);
    if Completes(j, ans) {
      CompletesExactly(j, ans);
    } else if Identifies(j, ans) {
      ProfileMeans(j, ans);
    } else if CanRegister(j, ans) {
      CredentialMeans(j, ans);
    } else {
      RefusedKeeps(j, ans);
    }
  }

  /**
   A callback that is not declined is queued exactly when it completes the signature leg, its Save
   is acknowledged and the push succeeds; and it leaves the job as each leg says.
   */
  lemma CallbackStep(cfg: Config, s: Sys, step: Step)
    requires Shaped(s) && Finds(s, step) && !step.declined
    ensures
      var (j, s') := (FoundJob(s, step), Next(cfg, s, step));
      && Touches(s, s', j.jobId, step.save, Completes(j, step.ans) && step.save.Saved? && step.pushed)
      && (step.save.Written() ==> CalledAs(j, step.ans, s'.jobs[j.jobId]))
  {
    var (j, e) := (FoundJob(s, step), EffectOf(cfg, s, step));
    StoredIsWellFormed(s, s.index[step.state]);
    CallbackMeans(j, step.ans);
    CalledBackMeans(j, step.ans);
    CalledBackIsWellFormed(j, false, step.ans);
    SettledTouches(s, e);
  }

  /**
   A written callback leaves the job SIGNING if and only if it was not declined, the job awaited the
   signature authorization, and a token was answered, for CSC with an authorization for exactly the
   job's credential and digests.
   */
  lemma SigningIff(cfg: Config, s: Sys, step: Step)
    requires Shaped(s) && Finds(s, step) && step.save.Written()
    ensures
      var (j, s') := (FoundJob(s, step), Next(cfg, s, step));
      && j.jobId in s'.jobs
      && (s'.jobs[j.jobId].state == Signing <==>
            !step.declined && j.state.AwaitingAuthorization? && Completes(j, step.ans))
  {
    var (j, s') := (FoundJob(s, step), Next(cfg, s, step));
    StoredIsWellFormed(s, s.index[step.state]);
    if step.declined {
      DeclinedFails(cfg, s, step);
    } else {
      CallbackStep(cfg, s, step);
      CalledState(j, step.ans, s'.jobs[j.jobId]);
    }
  }

  lemma CalledState(j: Job, ans: Answers, j': Job)
    requires WellFormed(j) && CalledAs(j, ans, j')
    ensures j'.state.Signing? <==> j.state.AwaitingAuthorization? && Completes(j, ans)
  {
    if !Completes(j, ans) && !Identifies(j, ans) && CanRegister(j, ans) {
      var digests, hash :| Registers(j, ans, digests, hash);
    }
  }

  // ---- Prepare ----

  /** What Prepare admits: a batch of one format, one document for eidScan, a flow on offer, for CSC a certificate. */
  lemma AdmittedIff(cfg: Config, input: PrepareInput)
    ensures Admitted(cfg, input) <==>
      && input.documents != [] && (input.flow == EidScan ==> |input.documents| == 1)
      && (forall i :: 0 <= i < |input.documents| ==> input.documents[i].format == input.documents[0].format)
      && (|| input.flow in {WebEid, EparakstsMobile, EidScan, EparakstsMobileEseal}
          || (input.flow == LegacyEid && cfg.legacyEidEnabled)
          || (input.flow in {CscEidScan, CscEidPlugin} && cfg.cscEnabled
              && !Stands(cfg, input.flow, input.authCert, "")))
  {
    OfferedByFlow(cfg, input.flow);
    CertificateExactly(cfg, input.flow, input.authCert);
  }

  /** Every document got a session and was uploaded. */
  ghost predicate AllUploaded(input: PrepareInput, ans: Answers) {
    && |ans.sessions| >= |input.documents|
    && forall k :: 0 <= k < |input.documents| ==> ans.sessions[k].Uploaded?
  }

  /** The job as requested, each document in the session answered for it. */
  ghost function Draft(id: string, input: PrepareInput, ans: Answers): Job
    requires AllUploaded(input, ans)
  {
    Job(id, input.flow, Preparing, "", NoHash, "", "",
        seq(|input.documents|, k requires 0 <= k < |input.documents| =>
          Document(input.documents[k].documentId, input.documents[k].format, input.documents[k].operation,
                   ans.sessions[k].sessionId, "", input.documents[k].digestAlgorithm, "", DocPending, None)),
        "", NoLeg, "", "", "", "", "", "", "", "", None)
  }

  lemma {:induction false} UploadedIff(answers: seq<SessionAnswer>, n: nat)
    ensures UploadedCount(answers, n) == n <==> |answers| >= n && forall k :: 0 <= k < n ==> answers[k].Uploaded?
  {
    if n > 0 && answers != [] {
      UploadedIff(answers[1..], n - 1);
      assert forall k :: 1 <= k < |answers| ==> answers[k] == answers[1..][k - 1];
    }
  }

  lemma CreatedMeans(id: string, input: PrepareInput, ans: Answers)
    ensures
      var c := CreateSessions(NewJob(id, input), ans.sessions);
      && (c.ok <==> AllUploaded(input, ans))
      && (c.ok ==> c.job == Draft(id, input, ans))
  {
    UploadedIff(ans.sessions, |input.documents|);
    var c := CreateSessions(NewJob(id, input), ans.sessions);
    if c.ok { assert c.job.documents == Draft(id, input, ans).documents; }
  }

  /** The sessions started before an upload failed stay on their documents. */
  lemma CreatedInPart(id: string, input: PrepareInput, ans: Answers, k: nat)
    requires k < |input.documents|
    ensures
      var j := CreateSessions(NewJob(id, input), ans.sessions).job;
      && |j.documents| == |input.documents|
      && j.documents[k].sessionId ==
         if k < |ans.sessions| && (forall i :: 0 <= i < k ==> ans.sessions[i].Uploaded?) && !ans.sessions[k].NoSession?
         then ans.sessions[k].sessionId else ""
  {
    UploadedUpTo(ans.sessions, |input.documents|, k);
  }

  lemma {:induction false} UploadedUpTo(answers: seq<SessionAnswer>, n: nat, k: nat)
    requires k < n
    ensures k <= UploadedCount(answers, n) <==> k <= |answers| && forall i :: 0 <= i < k ==> answers[i].Uploaded?
  {
    if k > 0 && answers != [] {
      UploadedUpTo(answers[1..], n - 1, k - 1);
      assert forall i :: 1 <= i < |answers| ==> answers[i] == answers[1..][i - 1];
    }
  }

  /** A local card: both certificates of the request, and the digests to sign. */
  ghost predicate PreparedLocally(j: Job, input: PrepareInput, ans: Answers, ok: bool, j': Job) {
    var given := j.(signingCert := input.signingCert, authCert := input.authCert);
    && (ok <==> Covers(ans.digests, j.documents))
    && (if ok then j'.state == AwaitingClientSignature && Applied(given, ans.digests.value, j'.(state := j.state))
        else j'.state.Failed? && j'.err == Some("signapi:calculate_digest_failed"))
  }

  /** CSC: the request's authentication certificate only, and the credential leg. */
  ghost predicate PreparedForCsc(j: Job, input: PrepareInput, ans: Answers, ok: bool, j': Job) {
    && (ok <==> ans.state.Some? && ans.pkce.Some? && ans.pushed)
    && (if ok then j' == j.(state := AwaitingAuthorization, authCert := input.authCert, oauthState := ans.state.value,
                            pkceVerifier := ans.pkce.value, pendingLeg := CredentialLeg)
        else j'.state.Failed? && j'.err == Some("signing:begin_authorization_failed"))
  }

  /** TrustedX: the three of the request if all are there and then the signature leg, otherwise the profile leg. */
  ghost predicate PreparedForTrustedX(j: Job, input: PrepareInput, ans: Answers, ok: bool, j': Job) {
    if input.signIdentityId != "" && input.signingCert != "" && input.authCert != "" then
      && (ok <==> Covers(ans.digests, j.documents) && ans.state.Some?)
      && (if ok then j'.state == AwaitingAuthorization
            && Consenting(j.(signIdentityId := input.signIdentityId, signingCert := input.signingCert,
                             authCert := input.authCert), ans, j'.(state := j.state))
          else j'.state.Failed? && j'.err == Some("signing:begin_authorization_failed"))
    else
      && (ok <==> ans.state.Some?)
      && (if ok then j' == j.(state := AwaitingAuthorization, oauthState := ans.state.value, pendingLeg := ProfileLeg)
          else j'.state.Failed? && j'.err == Some("signing:begin_authorization_failed"))
  }

  /** What Prepare comes to: the job it saves, and whether it succeeded. */
  ghost predicate PreparedAs(id: string, input: PrepareInput, ans: Answers, ok: bool, j': Job) {
    if !AllUploaded(input, ans) then !ok && j'.state.Failed? && j'.err == Some("signapi:upload_failed")
    else if input.flow.IsClientSide() then PreparedLocally(Draft(id, input, ans), input, ans, ok, j')
    else if input.flow.IsCsc() then PreparedForCsc(Draft(id, input, ans), input, ans, ok, j')
    else PreparedForTrustedX(Draft(id, input, ans), input, ans, ok, j')
  }

  lemma BegunLocally(j: Job, input: PrepareInput, ans: Answers)
    requires input.flow.IsClientSide() && j.state.Preparing?
    ensures var o := Begin(j, input, ans); PreparedLocally(j, input, ans, o.ok, o.job)
  {
    var given := j.(signingCert := input.signingCert, authCert := input.authCert);
    CalculatedMeans(given, input.signingCert, ans.digests);
    var (o, c) := (Begin(j, input, ans), CalculateDigests(given, input.signingCert, ans.digests));
    if o.ok { assert o.job.(state := j.state) == c.job; }
  }

  lemma BegunForTrustedX(j: Job, input: PrepareInput, ans: Answers)
    requires input.flow.IsTrustedX() && j.state.Preparing?
    requires j.signIdentityId == j.signingCert == j.authCert == ""
    ensures var o := Begin(j, input, ans); PreparedForTrustedX(j, input, ans, o.ok, o.job)
  {
    if input.signIdentityId != "" && input.signingCert != "" && input.authCert != "" {
      var given := j.(signIdentityId := input.signIdentityId, signingCert := input.signingCert,
                      authCert := input.authCert);
      ConsentMeans(given, ans);
      var (o, b) := (Begin(j, input, ans), BeginConsent(given, ans.digests, ans.state));
      if o.ok { assert o.job.(state := j.state) == b.job; }
    }
  }

  /** Prepare, whatever is answered. */
  lemma PreparedMeans(id: string, input: PrepareInput, ans: Answers)
    requires input.flow.Registered()
    ensures var o := Prepared(id, input, ans); PreparedAs(id, input, ans, o.ok, o.job)
  {
    CreatedMeans(id, input, ans);
    if AllUploaded(input, ans) {
      var j := Draft(id, input, ans);
      if input.flow.IsClientSide() {
        BegunLocally(j, input, ans);
      } else if input.flow.IsTrustedX() {
        BegunForTrustedX(j, input, ans);
      }
    }
  }

  // ---- Sign ----

  /** There is a k-th signature, and VerifySignature accepted it and all before it. */
  ghost predicate GoodUpTo(ans: SignAnswers, k: nat) {
    && ans.hashes.Some? && k < |ans.hashes.value| && k < |ans.verified|
    && forall i :: 0 <= i <= k ==> ans.hashes.value[i].Some? && ans.verified[i]
  }

  lemma {:induction false} AcceptedMeans(returned: seq<Option<seq<Byte>>>, verified: seq<bool>, n: nat, k: nat)
    ensures k < |AcceptedPrefix(returned, verified, n)| <==>
      && k < n && k < |returned| && k < |verified|
      && forall i :: 0 <= i <= k ==> returned[i].Some? && verified[i]
    ensures k < |AcceptedPrefix(returned, verified, n)| ==>
      k < |returned| && returned[k] == Some(AcceptedPrefix(returned, verified, n)[k])
  {
    if n > 0 && returned != [] && returned[0].Some? && verified != [] && verified[0] && k > 0 {
      AcceptedMeans(returned[1..], verified[1..], n - 1, k - 1);
      assert forall i :: 1 <= i < |returned| ==> returned[i] == returned[1..][i - 1];
      assert forall i :: 1 <= i < |verified| ==> verified[i] == verified[1..][i - 1];
    }
  }

  lemma {:induction false} AcceptedAt(ans: SignAnswers, n: nat, k: nat)
    requires ans.hashes.Some?
    ensures
      var accepted := AcceptedPrefix(ans.hashes.value, ans.verified, n);
      && (k < |accepted| <==> k < n && GoodUpTo(ans, k))
      && (k < |accepted| ==> k < |ans.hashes.value| && ans.hashes.value[k] == Some(accepted[k]))
  {
    AcceptedMeans(ans.hashes.value, ans.verified, n, k);
  }

  /**
   CSC signing: the token is spent, and document k has the k-th signature exactly when that one and
   all before it were accepted; it succeeds exactly when all were.
   */
  lemma CscSignMeans(j: Job, ans: SignAnswers, k: nat)
    requires k < |j.documents|
    ensures Digests(j.documents).None? || !ans.certParses ==> SignCsc(j, ans) == Outcome(j, false, [])
    ensures Digests(j.documents).Some? && ans.certParses ==>
      var o := SignCsc(j, ans);
      && o.job == j.(signingToken := "", documents := o.job.documents) && |o.job.documents| == |j.documents|
      && (o.ok <==> ans.hashes.Some? && GoodUpTo(ans, |j.documents| - 1))
      && o.job.documents[k] == if GoodUpTo(ans, k)
                               then j.documents[k].(signatureValue := Base64.Encode(ans.hashes.value[k].value))
                               else j.documents[k]
  {
    if ans.hashes.Some? {
      AcceptedAt(ans, |j.documents|, k);
      AcceptedAt(ans, |j.documents|, |j.documents| - 1);
    }
  }

  /** TrustedX batch signing: document k has the k-th signature, if there are as many as documents. */
  lemma ServerSignMeans(j: Job, ans: SignAnswers)
    ensures
      var o := SignServer(j, ans);
      && (o.ok <==> ans.raw.Some? && |ans.raw.value| == |j.documents|)
      && (!o.ok ==> o.job == j)
      && (o.ok ==>
            && o.job == j.(documents := o.job.documents) && |o.job.documents| == |j.documents|
            && forall k :: 0 <= k < |j.documents| ==>
                 o.job.documents[k] == j.documents[k].(signatureValue := ans.raw.value[k]))
  {
  }

  /** eidScan: the code goes on the job of one document, and the pushed signature on that document. */
  lemma DeviceSignMeans(j: Job, ans: SignAnswers)
    ensures
      var o := PublishCode(j, ans);
      && (o.ok <==> |j.documents| == 1 && ans.code.Some?)
      && o.job == (if o.ok then j.(verificationCode := ans.code.value) else j)
    ensures
      var o := PushDevice(j, ans);
      && (o.ok <==> |j.documents| == 1 && ans.device.Some? && ans.device.value.Some?)
      && o.job == if o.ok then j.(documents := [j.documents[0].(signatureValue := ans.device.value.value)]) else j
  {
  }

  /** What a worker saves next: FINALIZING and on, or FAILED with the code of what went wrong. */
  lemma WorkerMeans(j: Job, o: Outcome)
    ensures
      var next := AfterSign(o);
      if o.ok then next == ToSave(Transitioned(o.job, Finalizing), true)
      else next == ToSave(next.job, false) && FailedAs(o.job, next.job, "signing:sign_failed")
    ensures
      var next := AfterFinalize(o);
      if o.ok then next == ToSave(o.job, false)
      else next == ToSave(next.job, false) && FailedAs(o.job, next.job, "signapi:finalize_failed")
    ensures AfterPublish(j, Saved) == ToPush(j)
    ensures forall save: Save :: !save.Saved? ==>
      AfterPublish(j, save) == ToSave(AfterPublish(j, save).job, false)
        && FailedAs(j, AfterPublish(j, save).job, "signing:sign_failed")
  {
    FailedMeans(o.job, "signing:sign_failed");
    FailedMeans(o.job, "signapi:finalize_failed");
    FailedMeans(j, "signing:sign_failed");
  }
}
