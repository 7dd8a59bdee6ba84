/**
 The shared spine and the flows as they run (signing/orchestrator.go, signing/csc.go,
 signing/flows.go): each updates the job it is given in place, step by step, and returns the calls
 it made. Each is proved to do what its specification in Flows says.
 */
module SigningFlows {
  import opened Wrappers
  import opened Bytes
  import opened Jobs
  import opened Upstream
  import opened AuthCert
  import opened Flows
  import opened Machine
  import opened JobRecords
  import Base64
  import Ecdsa

  // ---- createSessionsAndUpload and calculateDigests ----

  lemma {:induction false} UploadedExactly(answers: seq<SessionAnswer>, n: nat, k: nat)
    requires k <= n && k <= |answers| && (forall i :: 0 <= i < k ==> answers[i].Uploaded?)
    requires k == n || k >= |answers| || !answers[k].Uploaded?
    ensures UploadedCount(answers, n) == k
  {
    if k > 0 { UploadedExactly(answers[1..], n - 1, k - 1); }
  }

  method CreateSessionsAndUpload(j: JobRecord, answers: seq<SessionAnswer>) returns (ok: bool)
    modifies j`documents
    ensures ok <==> CreateSessions(old(j.Value()), answers).ok
    ensures j.Value() == CreateSessions(old(j.Value()), answers).job
  {
    for i := 0 to |j.documents|
      invariant |j.documents| == |old(j.documents)| && i <= |answers|
      invariant forall k :: 0 <= k < i ==> answers[k].Uploaded?
      invariant forall k :: 0 <= k < |j.documents| ==>
        j.documents[k] == if k < i then old(j.documents)[k].(sessionId := answers[k].sessionId) else old(j.documents)[k]
    {
      if i >= |answers| || answers[i].NoSession? {
        UploadedExactly(answers, |j.documents|, i);
        assert j.documents == CreateSessions(old(j.Value()), answers).job.documents;
        return false;
      }
      j.documents := j.documents[i := j.documents[i].(sessionId := answers[i].sessionId)];
      if answers[i].NotUploaded? {
        UploadedExactly(answers, |j.documents|, i);
        assert j.documents == CreateSessions(old(j.Value()), answers).job.documents;
        return false;
      }
    }
    UploadedExactly(answers, |j.documents|, |j.documents|);
    assert j.documents == CreateSessions(old(j.Value()), answers).job.documents;
    return true;
  }

  lemma {:induction false} CoveredExactly(ds: seq<Document>, answers: seq<SessionDigest>, k: nat)
    requires k <= |ds| && (forall i :: 0 <= i < k ==> LastFor(answers, ds[i].sessionId).Some?)
    requires k == |ds| || LastFor(answers, ds[k].sessionId).None?
    ensures Covered(ds, answers) == k
  {
    if k > 0 { CoveredExactly(ds[1..], answers, k - 1); }
  }

  /** The answers by session; a later one replaces an earlier one. */
  method BySession(answers: seq<SessionDigest>) returns (found: map<string, string>)
    ensures forall s :: LastFor(answers, s) == if s in found then Some(found[s]) else None
  {
    found := map[];
    for i := 0 to |answers|
      invariant forall s :: LastFor(answers[..i], s) == if s in found then Some(found[s]) else None
    {
      found := found[answers[i].sessionId := answers[i].digest];
      assert answers[..i + 1][..i] == answers[..i];
    }
    assert answers[..|answers|] == answers;
  }

  method SessionsOf(ds: seq<Document>) returns (sessions: seq<string>)
    ensures sessions == Sessions(ds)
  {
    sessions := [];
    for i := 0 to |ds|
      invariant |sessions| == i && forall k :: 0 <= k < i ==> sessions[k] == ds[k].sessionId
    {
      sessions := sessions + [ds[i].sessionId];
    }
  }

  /** One document's digest, and what the job has not got yet. */
  function WithOne(j: Job, a: DigestAnswer, i: nat, digest: string): Job
    requires i < |j.documents|
  {
    var d := j.documents[i];
    var d' :=
      d.(digest := digest, digestAlgorithm := if d.digestAlgorithm == "" then a.algorithm else d.digestAlgorithm);
    j.(documents := j.documents[i := d'],
       signAlgo := if j.signAlgo == "" then a.signatureAlgorithm else j.signAlgo,
       digestsSummary := if j.digestsSummary == "" then a.summary else j.digestsSummary,
       digestsSummaryAlgo := if j.digestsSummary == "" then a.algorithm else j.digestsSummaryAlgo)
  }

  lemma WithOneMoreDigest(j: Job, a: DigestAnswer, i: nat, digest: string)
    requires i < |j.documents| && LastFor(a.sessions, j.documents[i].sessionId) == Some(digest)
    ensures |WithDigests(j, a, i).documents| == |j.documents|
    ensures WithOne(WithDigests(j, a, i), a, i, digest) == WithDigests(j, a, i + 1)
  {
    assert WithOne(WithDigests(j, a, i), a, i, digest).documents == WithDigests(j, a, i + 1).documents;
  }

  /** The loop body of calculateDigests. */
  method ApplyDigest(j: JobRecord, a: DigestAnswer, i: nat, digest: string)
    requires i < |j.documents|
    modifies j`documents, j`signAlgo, j`digestsSummary, j`digestsSummaryAlgo
    ensures j.Value() == WithOne(old(j.Value()), a, i, digest)
  {
    var d := j.documents[i].(digest := digest);
    if d.digestAlgorithm == "" { d := d.(digestAlgorithm := a.algorithm); }
    j.documents := j.documents[i := d];
    if j.signAlgo == "" { j.signAlgo := a.signatureAlgorithm; }
    if j.digestsSummary == "" { j.digestsSummary, j.digestsSummaryAlgo := a.summary, a.algorithm; }
  }

  method ApplyDigests(j: JobRecord, a: DigestAnswer) returns (ok: bool)
    modifies j`documents, j`signAlgo, j`digestsSummary, j`digestsSummaryAlgo
    ensures
      var n := Covered(old(j.documents), a.sessions);
      j.Value() == WithDigests(old(j.Value()), a, n) && ok == (n == |old(j.documents)|)
  {
    ghost var was := j.Value();
    var found := BySession(a.sessions);
    assert WithDigests(was, a, 0) == was;
    for i := 0 to |j.documents|
      invariant j.Value() == WithDigests(was, a, i)
      invariant forall k :: 0 <= k < i ==> LastFor(a.sessions, was.documents[k].sessionId).Some?
    {
      assert j.documents[i] == was.documents[i];
      if j.documents[i].sessionId !in found {
        CoveredExactly(was.documents, a.sessions, i);
        return false;
      }
      WithOneMoreDigest(was, a, i, found[was.documents[i].sessionId]);
      ApplyDigest(j, a, i, found[j.documents[i].sessionId]);
    }
    CoveredExactly(was.documents, a.sessions, |was.documents|);
    return true;
  }

  method CalculateJobDigests(j: JobRecord, certificate: string, answer: Option<DigestAnswer>)
    returns (ok: bool, calls: seq<Event>)
    modifies j`documents, j`signAlgo, j`digestsSummary, j`digestsSummaryAlgo
    ensures
      var o := CalculateDigests(old(j.Value()), certificate, answer);
      j.Value() == o.job && ok == o.ok && calls == o.events
  {
    if j.documents == [] || answer.None? { return false, []; }
    var sessions := SessionsOf(j.documents);
    var first := j.documents[0];
    var (signAsPdf, createNewEdoc) := (first.format.Pades?, !first.format.Pades? && first.operation.Create?);
    calls := [Calculated(j.Value(), certificate, sessions, signAsPdf, createNewEdoc, answer.value)];
    ok := ApplyDigests(j, answer.value);
  }

  // ---- TrustedX ----

  /** beginSuppliedIdentity, and the end of advanceProfile. */
  method RequestConsent(j: JobRecord, digests: Option<DigestAnswer>, state: Option<string>)
    returns (ok: bool, calls: seq<Event>)
    modifies j
    ensures
      var o := BeginConsent(old(j.Value()), digests, state);
      j.Value() == o.job && ok == o.ok && calls == o.events
  {
    ok, calls := CalculateJobDigests(j, j.signingCert, digests);
    if !ok || state.None? { return false, calls; }
    j.oauthState, j.pendingLeg := state.value, SignLeg;
    calls := calls + [Consent(j.Value(), j.oauthState, j.signIdentityId, j.digestsSummary, j.digestsSummaryAlgo)];
  }

  method BeginTrustedXAuthorization(j: JobRecord, ans: Answers) returns (ok: bool, calls: seq<Event>)
    modifies j
    ensures
      var o := BeginTrustedX(old(j.Value()), ans);
      j.Value() == o.job && ok == o.ok && calls == o.events
  {
    if j.signIdentityId != "" && j.signingCert != "" && j.authCert != "" {
      ok, calls := RequestConsent(j, ans.digests, ans.state);
      return;
    }
    if ans.state.None? { return false, []; }
    j.oauthState, j.pendingLeg := ans.state.value, ProfileLeg;
    return true, [];
  }

  method AdvanceProfileLeg(j: JobRecord, ans: Answers) returns (verdict: Verdict, calls: seq<Event>)
    modifies j
    ensures AdvanceProfile(old(j.Value()), ans) == Advance(j.Value(), verdict, calls)
  {
    if ans.token.None? { return Refusal, []; }
    j.profileToken := ans.token.value.access;
    if ans.identities.None? { return Refusal, []; }
    var info := IdentityInfo(j.Value(), ans.identities.value);
    verdict, calls := TakeIdentities(j, ans.identities.value, ans);
    calls := [info] + calls;
  }

  /** advanceProfile once the identities are read. */
  method TakeIdentities(j: JobRecord, ids: Identities, ans: Answers) returns (verdict: Verdict, calls: seq<Event>)
    modifies j
    ensures TakeIdentity(old(j.Value()), ids, ans) == Advance(j.Value(), verdict, calls)
  {
    if ids.signing.None? { return Refusal, []; }
    j.signIdentityId := ids.signing.value;
    j.signingCert := if ids.signingCert.None? then "" else ids.signingCert.value;
    if ids.signingCert.None? || !ids.authSelected { return Refusal, []; }
    j.authCert := if ids.authCert.None? then "" else ids.authCert.value;
    if ids.authCert.None? { return Refusal, []; }
    var ok;
    ok, calls := RequestConsent(j, ans.digests, ans.state);
    verdict := if ok then Redirect else Refusal;
  }

  method AdvanceTrustedXCallback(j: JobRecord, ans: Answers) returns (verdict: Verdict, calls: seq<Event>)
    modifies j
    ensures AdvanceTrustedX(old(j.Value()), ans) == Advance(j.Value(), verdict, calls)
  {
    match j.pendingLeg {
      case ProfileLeg => verdict, calls := AdvanceProfileLeg(j, ans);
      case SignLeg =>
        if ans.token.None? { return Refusal, []; }
        j.signingToken, j.pendingLeg := ans.token.value.access, NoLeg;
        return Done, [];
      case _ => return Refusal, [];
    }
  }

  // ---- CSC ----

  method BeginCscAuthorization(j: JobRecord, ans: Answers) returns (ok: bool)
    modifies j`oauthState, j`pkceVerifier, j`pendingLeg
    ensures BeginCsc(old(j.Value()), ans) == Outcome(j.Value(), ok, [])
  {
    if ans.state.None? || ans.pkce.None? { return false; }
    j.oauthState, j.pkceVerifier := ans.state.value, ans.pkce.value;
    j.pendingLeg := CredentialLeg;
    return ans.pushed;
  }

  lemma {:induction false} MixedFitsNothing(digests: seq<seq<Byte>>, i: nat)
    requires i < |digests| && (HashOf(digests[i]).NoHash? || HashOf(digests[i]) != HashOf(digests[0]))
    ensures BatchHash(digests).None?
  {
    forall h ensures BatchHash(digests) != Some(h) {
      BatchHashFits(digests, h);
      if |digests[i]| == h.DigestLength() { assert |digests[0]| != h.DigestLength() || h.NoHash?; }
    }
  }

  /** digestAlgorithmOID: the one algorithm whose digests are as long as every digest of the batch. */
  method DigestAlgorithm(digests: seq<seq<Byte>>) returns (hash: Option<HashAlgorithm>)
    ensures hash == BatchHash(digests)
  {
    if digests == [] { return None; }
    var oid := NoHash;
    for i := 0 to |digests|
      invariant oid == if i == 0 then NoHash else HashOf(digests[0])
      invariant oid.NoHash? <==> i == 0
      invariant forall k :: 0 <= k < i ==> |digests[k]| == oid.DigestLength()
    {
      var o := NoHash;
      for c := 0 to 3
        invariant o == if c >= 1 && |digests[i]| == 32 then Sha256 else if c >= 2 && |digests[i]| == 48 then Sha384
                       else if c >= 3 && |digests[i]| == 64 then Sha512 else NoHash
      {
        var candidate := [Sha256, Sha384, Sha512][c];
        if candidate.DigestLength() == |digests[i]| { o := candidate; }
      }
      if o.NoHash? || (!oid.NoHash? && o != oid) {
        MixedFitsNothing(digests, i);
        return None;
      }
      oid := o;
    }
    BatchHashFits(digests, oid);
    return Some(oid);
  }

  method PushSignatureRequest(j: JobRecord, digests: seq<seq<Byte>>, cred: Credential, ans: Answers)
    returns (verdict: Verdict, calls: seq<Event>)
    modifies j`hashAlgorithm, j`signAlgo, j`oauthState, j`pkceVerifier, j`pendingLeg
    ensures RequestSignature(old(j.Value()), digests, cred, ans) == Advance(j.Value(), verdict, calls)
  {
    ghost var was := j.Value();
    var hash := DigestAlgorithm(digests);
    assert j.Value() == was;
    if hash.None? || hash.value !in cred.signAlgo { return Refusal, []; }
    j.hashAlgorithm, j.signAlgo := hash.value, cred.signAlgo[hash.value];
    assert j.Value() == was.(hashAlgorithm := hash.value, signAlgo := cred.signAlgo[hash.value]);
    if ans.state.None? || ans.pkce.None? { return Refusal, []; }
    j.oauthState, j.pkceVerifier := ans.state.value, ans.pkce.value;
    j.pendingLeg := SignLeg;
    calls := [Pushed(j.Value(), j.oauthState, j.credentialId, digests, j.hashAlgorithm, ans.pushed)];
    verdict := if ans.pushed then Redirect else Refusal;
  }

  method AdvanceCredentialLeg(j: JobRecord, token: Token, ans: Answers) returns (verdict: Verdict, calls: seq<Event>)
    modifies j
    ensures AdvanceCredential(old(j.Value()), token, ans) == Advance(j.Value(), verdict, calls)
  {
    if token.credentialId == "" || ans.credential.None? { return Refusal, []; }
    var cred := ans.credential.value;
    var info := CredentialInfo(j.Value(), token.credentialId, cred.credentialId, cred.leaf);
    if !cred.maySign || cred.leaf.None? { return Refusal, [info]; }
    j.credentialId, j.signingCert := cred.credentialId, cred.leaf.value;
    var ok, calculated := CalculateJobDigests(j, j.signingCert, ans.digests);
    if !ok { return Refusal, [info] + calculated; }
    ghost var was := j.Value();
    var digests := j.Digests();
    assert j.Value() == was;
    if digests.None? { return Refusal, [info] + calculated; }
    verdict, calls := PushSignatureRequest(j, digests.value, cred, ans);
    calls := [info] + calculated + calls;
  }

  method AdvanceCscCallback(j: JobRecord, ans: Answers) returns (verdict: Verdict, calls: seq<Event>)
    modifies j
    ensures AdvanceCsc(old(j.Value()), ans) == Advance(j.Value(), verdict, calls)
  {
    j.pkceVerifier := "";
    if ans.token.None? { return Refusal, []; }
    match j.pendingLeg {
      case CredentialLeg => verdict, calls := AdvanceCredentialLeg(j, ans.token.value, ans);
      case SignLeg =>
        if ans.authorized.None? { return Refusal, []; }
        var digests := j.Digests();
        if digests.None? { return Refusal, []; }
        if ans.authorized.value != Authorized(j.credentialId, digests.value) { return Refusal, []; }
        j.signingToken, j.pendingLeg := ans.token.value.access, NoLeg;
        return Done, [Bound(j.Value(), j.credentialId, digests.value)];
      case _ => return Refusal, [];
    }
  }

  // ---- Sign ----

  lemma {:induction false} AcceptedExactly(returned: seq<Option<seq<Byte>>>, verified: seq<bool>, n: nat,
                                           accepted: seq<seq<Byte>>)
    requires |accepted| <= n && Leading(returned, verified, accepted)
    requires |accepted| == n || !Accepts(returned, verified, |accepted|)
    ensures AcceptedPrefix(returned, verified, n) == accepted
  {
    if accepted != [] { AcceptedExactly(returned[1..], verified[1..], n - 1, accepted[1..]); }
  }

  /** The given values are the first ones returned, all of them verified. */
  ghost predicate Leading(returned: seq<Option<seq<Byte>>>, verified: seq<bool>, accepted: seq<seq<Byte>>) {
    && |accepted| <= |returned| && |accepted| <= |verified|
    && forall i :: 0 <= i < |accepted| ==> returned[i] == Some(accepted[i]) && verified[i]
  }

  /** There is a k-th value, and it verifies. */
  predicate Accepts(returned: seq<Option<seq<Byte>>>, verified: seq<bool>, k: nat) {
    k < |returned| && returned[k].Some? && k < |verified| && verified[k]
  }

  function PassedChecks(j: Job, digests: seq<seq<Byte>>, accepted: seq<seq<Byte>>): seq<Event>
    requires |accepted| <= |digests|
  {
    seq(|accepted|, i requires 0 <= i < |accepted| =>
      Checked(j, j.signingCert, j.signAlgo, j.hashAlgorithm, digests[i], accepted[i], true))
  }

  lemma {:induction false} ChecksExactly(j: Job, digests: seq<seq<Byte>>, returned: seq<Option<seq<Byte>>>,
                                         verified: seq<bool>,
                                         accepted: seq<seq<Byte>>)
    requires |accepted| <= |digests| && Leading(returned, verified, accepted)
    ensures
      var n := |accepted|;
      Checks(j, digests, returned, verified)
        == PassedChecks(j, digests, accepted) + Checks(j, digests[n..], returned[n..], verified[n..])
  {
    if accepted == [] {
      assert digests[0..] == digests && returned[0..] == returned && verified[0..] == verified;
    } else {
      var n := |accepted|;
      LeadingTail(returned, verified, accepted);
      ChecksExactly(j, digests[1..], returned[1..], verified[1..], accepted[1..]);
      assert digests[1..][n - 1..] == digests[n..] && returned[1..][n - 1..] == returned[n..]
        && verified[1..][n - 1..] == verified[n..];
      ChecksOneMore(j, digests, returned, verified, accepted, Checks(j, digests[n..], returned[n..], verified[n..]));
    }
  }

  /** If the checks of all but the first value are so, then so are those of all. */
  lemma {:induction false} ChecksOneMore(j: Job, digests: seq<seq<Byte>>, returned: seq<Option<seq<Byte>>>,
                                         verified: seq<bool>,
                                         accepted: seq<seq<Byte>>, rest: seq<Event>)
    requires accepted != [] && |accepted| <= |digests| && Leading(returned, verified, accepted)
    requires Checks(j, digests[1..], returned[1..], verified[1..])
      == PassedChecks(j, digests[1..], accepted[1..]) + rest
    ensures Checks(j, digests, returned, verified) == PassedChecks(j, digests, accepted) + rest
  {
    FirstCheck(j, digests, returned, verified, accepted[0]);
    FirstPassed(j, digests, accepted);
    var first := Checked(j, j.signingCert, j.signAlgo, j.hashAlgorithm, digests[0], accepted[0], true);
    var passed := PassedChecks(j, digests[1..], accepted[1..]);
    assert [first] + (passed + rest) == [first] + passed + rest;
  }

  lemma LeadingTail(returned: seq<Option<seq<Byte>>>, verified: seq<bool>, accepted: seq<seq<Byte>>)
    requires accepted != [] && Leading(returned, verified, accepted)
    ensures Leading(returned[1..], verified[1..], accepted[1..]) && returned[0] == Some(accepted[0]) && verified[0]
  {
  }

  lemma {:induction false} FirstCheck(j: Job, digests: seq<seq<Byte>>, returned: seq<Option<seq<Byte>>>,
                                      verified: seq<bool>, value: seq<Byte>)
    requires digests != [] && returned != [] && verified != [] && returned[0] == Some(value) && verified[0]
    ensures Checks(j, digests, returned, verified)
      == [Checked(j, j.signingCert, j.signAlgo, j.hashAlgorithm, digests[0], value, true)]
        + Checks(j, digests[1..], returned[1..], verified[1..])
  {
  }

  lemma FirstPassed(j: Job, digests: seq<seq<Byte>>, accepted: seq<seq<Byte>>)
    requires accepted != [] && |accepted| <= |digests|
    ensures PassedChecks(j, digests, accepted)
      == [Checked(j, j.signingCert, j.signAlgo, j.hashAlgorithm, digests[0], accepted[0], true)]
        + PassedChecks(j, digests[1..], accepted[1..])
  {
  }

  /** The checks end with the documents, with a value that is missing, or with one that is not accepted. */
  lemma {:induction false} ChecksEnd(j: Job, digests: seq<seq<Byte>>, returned: seq<Option<seq<Byte>>>,
                                     verified: seq<bool>, accepted: seq<seq<Byte>>)
    requires |accepted| <= |digests| && Leading(returned, verified, accepted)
    ensures
      var n := |accepted|;
      && (n == |digests| || n >= |returned| || returned[n].None? ==>
            Checks(j, digests, returned, verified) == PassedChecks(j, digests, accepted))
      && (n < |digests| && n < |returned| && returned[n].Some? && !Accepts(returned, verified, n) ==>
            Checks(j, digests, returned, verified) == PassedChecks(j, digests, accepted)
              + [Checked(j, j.signingCert, j.signAlgo, j.hashAlgorithm, digests[n], returned[n].value, false)])
  {
    ChecksExactly(j, digests, returned, verified, accepted);
  }

  lemma OneMorePassed(j: Job, digests: seq<seq<Byte>>, accepted: seq<seq<Byte>>, value: seq<Byte>)
    requires |accepted| < |digests|
    ensures PassedChecks(j, digests, accepted + [value]) == PassedChecks(j, digests, accepted)
      + [Checked(j, j.signingCert, j.signAlgo, j.hashAlgorithm, digests[|accepted|], value, true)]
  {
  }

  lemma {:induction false} OneMoreSigned(ds: seq<Document>, accepted: seq<seq<Byte>>, value: seq<Byte>)
    requires |accepted| < |ds|
    ensures
      var (i, now) := (|accepted|, WithSignatures(ds, Encoded(accepted)));
      |now| == |ds|
        && WithSignatures(ds, Encoded(accepted + [value])) == now[i := now[i].(signatureValue := Base64.Encode(value))]
  {
  }

  /** Every value verified over its own digest before the next is looked at; the first that is not ends the signing. */
  method TakeSignatures(j: JobRecord, sent: Job, digests: seq<seq<Byte>>, returned: seq<Option<seq<Byte>>>,
                        verified: seq<bool>)
    returns (accepted: seq<seq<Byte>>, calls: seq<Event>)
    requires |digests| == |j.documents|
    modifies j`documents
    ensures accepted == AcceptedPrefix(returned, verified, |old(j.documents)|)
    ensures j.documents == WithSignatures(old(j.documents), Encoded(accepted))
    ensures calls == Checks(sent, digests, returned, verified)
  {
    accepted, calls := [], [];
    for i := 0 to |j.documents|
      invariant |accepted| == i && |j.documents| == |digests| && Leading(returned, verified, accepted)
      invariant calls == PassedChecks(sent, digests, accepted)
      invariant j.documents == WithSignatures(old(j.documents), Encoded(accepted))
    {
      ChecksEnd(sent, digests, returned, verified, accepted);
      if i >= |returned| || returned[i].None? {
        AcceptedExactly(returned, verified, |digests|, accepted);
        return;
      }
      var ok := i < |verified| && verified[i];
      calls :=
        calls + [Checked(sent, sent.signingCert, sent.signAlgo, sent.hashAlgorithm, digests[i], returned[i].value, ok)];
      if !ok {
        AcceptedExactly(returned, verified, |digests|, accepted);
        return;
      }
      OneMorePassed(sent, digests, accepted, returned[i].value);
      OneMoreSigned(old(j.documents), accepted, returned[i].value);
      j.documents := j.documents[i := j.documents[i].(signatureValue := Base64.Encode(returned[i].value))];
      accepted := accepted + [returned[i].value];
    }
    ChecksEnd(sent, digests, returned, verified, accepted);
    AcceptedExactly(returned, verified, |digests|, accepted);
  }

  method SignCscHashes(j: JobRecord, ans: SignAnswers) returns (ok: bool, calls: seq<Event>)
    modifies j`documents, j`signingToken
    ensures SignCsc(old(j.Value()), ans) == Outcome(j.Value(), ok, calls)
  {
    var sent := j.Value();
    var digests := j.Digests();
    if digests.None? || !ans.certParses { return false, []; }
    j.signingToken := "";
    var returned := if ans.hashes.None? then [] else ans.hashes.value;
    DigestsCount(j.documents);
    var accepted, checks := TakeSignatures(j, sent, digests.value, returned, ans.verified);
    ok := ans.hashes.Some? && |accepted| == |j.documents|;
    calls := [SignHash(sent, j.credentialId, digests.value, j.hashAlgorithm, j.signAlgo, ans.hashes)] + checks;
  }

  lemma {:induction false} DigestsCount(ds: seq<Document>)
    requires Digests(ds).Some?
    ensures |Digests(ds).value| == |ds|
  {
    if ds != [] { DigestsAt(ds, 0); }
  }

  method SignServerBatch(j: JobRecord, ans: SignAnswers) returns (ok: bool, calls: seq<Event>)
    modifies j`documents
    ensures SignServer(old(j.Value()), ans) == Outcome(j.Value(), ok, calls)
  {
    var sent := j.Value();
    var texts: seq<string> := [];
    for i := 0 to |j.documents|
      invariant |texts| == i && forall k :: 0 <= k < i ==> texts[k] == j.documents[k].digest
    {
      texts := texts + [j.documents[i].digest];
    }
    assert texts == DigestTexts(sent.documents);
    ok := ans.raw.Some? && |ans.raw.value| == |j.documents|;
    calls := [ServerRaw(sent, j.signIdentityId, texts, j.signAlgo, if ok then ans.raw.value else [])];
    if !ok { return; }
    for i := 0 to |j.documents|
      invariant |j.documents| == |sent.documents|
      invariant forall k :: 0 <= k < |j.documents| ==>
        j.documents[k] == if k < i then sent.documents[k].(signatureValue := ans.raw.value[k]) else sent.documents[k]
    {
      j.documents := j.documents[i := j.documents[i].(signatureValue := ans.raw.value[i])];
    }
    assert j.documents == WithSignatures(sent.documents, ans.raw.value);
  }

  /** signDevice before the push. */
  method PublishVerificationCode(j: JobRecord, ans: SignAnswers) returns (ok: bool)
    modifies j`verificationCode
    ensures PublishCode(old(j.Value()), ans) == Outcome(j.Value(), ok, [])
  {
    if |j.documents| != 1 || ans.code.None? { return false; }
    j.verificationCode := ans.code.value;
    return true;
  }

  /** signDevice from the push on; Device models the polling behind the answer. */
  method PushToDevice(j: JobRecord, ans: SignAnswers) returns (ok: bool, calls: seq<Event>)
    modifies j`documents
    ensures PushDevice(old(j.Value()), ans) == Outcome(j.Value(), ok, calls)
  {
    if |j.documents| != 1 { return false, []; }
    var value := if ans.device.None? then None else ans.device.value;
    calls := [DevicePush(j.Value(), j.signIdentityId, j.documents[0].digest, j.verificationCode, value)];
    ok := value.Some?;
    if ok {
      ghost var was := j.documents;
      j.documents := j.documents[0 := j.documents[0].(signatureValue := value.value)];
      assert j.documents == WithSignatures(was, [value.value]);
    }
  }

  /** flow.Sign, for eidScan as far as the code. */
  method SignJob(j: JobRecord, ans: SignAnswers) returns (ok: bool, calls: seq<Event>)
    modifies j`documents, j`signingToken, j`verificationCode
    ensures Sign(old(j.Value()), ans) == Outcome(j.Value(), ok, calls)
  {
    if j.flow.IsCsc() {
      ok, calls := SignCscHashes(j, ans);
    } else if j.flow.EidScan? {
      ok := PublishVerificationCode(j, ans);
      calls := [];
    } else if j.flow.IsTrustedX() {
      ok, calls := SignServerBatch(j, ans);
    } else {
      return false, [];
    }
  }

  // ---- finalize ----

  lemma {:induction false} EntriesOfPrefix(ds: seq<Document>, i: nat)
    requires i < |ds| && Entries(ds[..i]).Some?
    ensures match Ecdsa.NormalizeText(ds[i].signatureValue)
            case None => Entries(ds).None?
            case Some((der, _)) => Entries(ds[..i + 1]) == Some(Entries(ds[..i]).value + [Entry(ds[i].sessionId, der)])
  {
    assert ds[..i + 1][1..] == ds[1..][..i];
    if i == 0 {
      assert ds[..0] == [] && ds[..1] == [ds[0]] && [ds[0]][1..] == [];
      assert forall x: Entry :: [x] + [] == [] + [x];
    } else {
      assert ds[..i][1..] == ds[1..][..i - 1] && ds[1..][i - 1] == ds[i];
      EntriesOfPrefix(ds[1..], i - 1);
      assert ds[1..][..i - 1 + 1] == ds[1..][..i];
      if Ecdsa.NormalizeText(ds[i].signatureValue).Some? {
        var first := Entry(ds[0].sessionId, Ecdsa.NormalizeText(ds[0].signatureValue).value.0);
        var last := Entry(ds[i].sessionId, Ecdsa.NormalizeText(ds[i].signatureValue).value.0);
        var rest := Entries(ds[1..][..i - 1]).value;
        assert [first] + (rest + [last]) == [first] + rest + [last];
      }
    }
  }

  method NormalizeEntries(ds: seq<Document>) returns (entries: Option<seq<Entry>>)
    ensures entries == Entries(ds)
  {
    var out: seq<Entry> := [];
    for i := 0 to |ds|
      invariant Entries(ds[..i]) == Some(out)
    {
      var der := Ecdsa.NormalizeText(ds[i].signatureValue);
      EntriesOfPrefix(ds, i);
      if der.None? { return None; }
      out := out + [Entry(ds[i].sessionId, der.value.0)];
    }
    assert ds[..|ds|] == ds;
    return Some(out);
  }

  method MarkReady(j: JobRecord)
    modifies j`documents
    ensures j.documents == ReadyDocuments(old(j.documents))
  {
    for i := 0 to |j.documents|
      invariant |j.documents| == |old(j.documents)|
      invariant forall k :: 0 <= k < |j.documents| ==>
        j.documents[k] == if k < i then old(j.documents)[k].(state := DocReady, signatureValue := "")
                          else old(j.documents)[k]
    {
      j.documents := j.documents[i := j.documents[i].(state := DocReady)];
      j.documents := j.documents[i := j.documents[i].(signatureValue := "")];
    }
  }

  method FinalizeJob(cfg: Config, j: JobRecord, taken: bool) returns (ok: bool, calls: seq<Event>)
    modifies j`documents, j`state
    ensures Finalized(cfg, old(j.Value()), taken) == Outcome(j.Value(), ok, calls)
    ensures forall certificate :: Stands(cfg, old(j.flow), old(j.authCert), certificate) ==>
      FinalizedWith(cfg, old(j.Value()), taken, certificate, Outcome(j.Value(), ok, calls))
  {
    var sent := j.Value();
    forall certificate | Stands(cfg, j.flow, j.authCert, certificate)
      ensures FinalizedWith(cfg, sent, taken, certificate, Finalized(cfg, sent, taken))
    {
      FinalizedMeans(cfg, sent, taken, certificate);
    }
    var cert := CertificateFor(cfg, j.flow, j.authCert);
    if !cert.Available() { return false, [Event.Refused(sent, SignOp)]; }
    calls := [Requested(sent, cert.source, SignOp)];
    var entries := NormalizeEntries(j.documents);
    if entries.None? { return false, calls; }
    calls := calls + [Finalize(sent, entries.value, cert.text, taken)];
    if !taken { return false, calls; }
    MarkReady(j);
    var moved := j.Transition(State.Ready);
    ok := true;
  }

  // ---- Prepare ----

  /** validateBatch. */
  method ValidateBatch(input: PrepareInput) returns (ok: bool)
    ensures ok <==> ValidBatch(input)
  {
    if input.documents == [] || (|input.documents| > 1 && input.flow.EidScan?) { return false; }
    for i := 1 to |input.documents|
      invariant forall k :: 0 <= k < i ==> input.documents[k].format == input.documents[0].format
    {
      if input.documents[i].format != input.documents[0].format { return false; }
    }
    return true;
  }

  /** What Prepare refuses before it creates anything. */
  method Admit(cfg: Config, input: PrepareInput) returns (ok: bool)
    ensures ok <==> Admitted(cfg, input)
  {
    if !input.flow.Registered() { return false; }
    ok := ValidateBatch(input);
    if !ok || !Offered(cfg, input.flow) { return false; }
    return input.flow.IsCsc() ==> CertificateFor(cfg, input.flow, input.authCert).Available();
  }

  method CreateJob(id: string, input: PrepareInput) returns (j: JobRecord)
    ensures fresh(j) && j.Value() == NewJob(id, input)
  {
    j := new JobRecord(Job(id, input.flow, Preparing, "", NoHash, "", "", [], "", NoLeg, "", "", "", "", "", "", "", "",
                           None));
    ghost var was := j.Value();
    for i := 0 to |input.documents|
      invariant j.Value() == was.(documents := j.documents) && |j.documents| == i
      invariant forall k :: 0 <= k < i ==> j.documents[k] == NewDocument(input.documents[k])
    {
      var d := input.documents[i];
      j.documents :=
        j.documents + [Document(d.documentId, d.format, d.operation, "", "", d.digestAlgorithm, "", DocPending, None)];
    }
    assert j.documents == NewJob(id, input).documents;
  }

  method BeginClientSide(j: JobRecord, input: PrepareInput, ans: Answers) returns (ok: bool, calls: seq<Event>)
    requires input.flow.IsClientSide()
    modifies j
    ensures Begin(old(j.Value()), input, ans) == Outcome(j.Value(), ok, calls)
  {
    j.signingCert, j.authCert := input.signingCert, input.authCert;
    ok, calls := CalculateJobDigests(j, input.signingCert, ans.digests);
    ghost var calculated := j.Value();
    if !ok {
      j.Fail("signapi:calculate_digest_failed");
      assert j.Value() == FailedWith(calculated, "signapi:calculate_digest_failed");
    } else {
      var moved := j.Transition(AwaitingClientSignature);
      assert j.Value() == Transitioned(calculated, AwaitingClientSignature);
    }
  }

  /** The certificates a remote job takes from the request. */
  function Supplied(j: Job, input: PrepareInput): Job {
    if input.flow.IsCsc() then j.(authCert := input.authCert)
    else if input.signIdentityId != "" && input.signingCert != "" && input.authCert != "" then
      j.(signIdentityId := input.signIdentityId, signingCert := input.signingCert, authCert := input.authCert)
    else j
  }

  method TakeSupplied(j: JobRecord, input: PrepareInput)
    modifies j`signIdentityId, j`signingCert, j`authCert
    ensures j.Value() == Supplied(old(j.Value()), input)
  {
    if input.flow.IsCsc() {
      j.authCert := input.authCert;
    } else if input.signIdentityId != "" && input.signingCert != "" && input.authCert != "" {
      j.signIdentityId, j.signingCert, j.authCert := input.signIdentityId, input.signingCert, input.authCert;
    }
  }

  method BeginAuthorization(j: JobRecord, csc: bool, ans: Answers) returns (ok: bool, calls: seq<Event>)
    modifies j
    ensures (if csc then BeginCsc(old(j.Value()), ans) else BeginTrustedX(old(j.Value()), ans))
      == Outcome(j.Value(), ok, calls)
  {
    if csc {
      ok := BeginCscAuthorization(j, ans);
      calls := [];
    } else {
      ok, calls := BeginTrustedXAuthorization(j, ans);
    }
  }

  method BeginRemote(j: JobRecord, input: PrepareInput, ans: Answers) returns (ok: bool, calls: seq<Event>)
    requires !input.flow.IsClientSide()
    modifies j
    ensures Begin(old(j.Value()), input, ans) == Outcome(j.Value(), ok, calls)
  {
    TakeSupplied(j, input);
    ok, calls := BeginAuthorization(j, input.flow.IsCsc(), ans);
    if !ok {
      j.Fail("signing:begin_authorization_failed");
    } else {
      var moved := j.Transition(AwaitingAuthorization);
    }
  }

  /** Prepare from the created job to the one it saves. */
  method PrepareJob(id: string, input: PrepareInput, ans: Answers) returns (j: JobRecord, ok: bool, calls: seq<Event>)
    ensures fresh(j) && Prepared(id, input, ans) == Outcome(j.Value(), ok, calls)
  {
    j := CreateJob(id, input);
    ok := CreateSessionsAndUpload(j, ans.sessions);
    if !ok {
      j.Fail("signapi:upload_failed");
      return j, false, [];
    }
    if input.flow.IsClientSide() {
      ok, calls := BeginClientSide(j, input, ans);
    } else {
      ok, calls := BeginRemote(j, input, ans);
    }
  }

  // ---- Callback ----

  /** Callback from the loaded job to the one it saves. */
  method AdvanceJob(j: JobRecord, declined: bool, ans: Answers) returns (verdict: Verdict, calls: seq<Event>)
    modifies j
    ensures CalledBack(old(j.Value()), declined, ans) == Advance(j.Value(), verdict, calls)
  {
    if declined {
      j.Fail("signing:declined");
      return Refusal, [];
    }
    if !j.flow.Registered() {
      j.Fail("signing:unknown_flow");
      return Refusal, [];
    }
    if j.flow.IsTrustedX() {
      verdict, calls := AdvanceTrustedXCallback(j, ans);
    } else if j.flow.IsCsc() {
      verdict, calls := AdvanceCscCallback(j, ans);
    } else {
      verdict, calls := Refusal, [];
    }
    match verdict {
      case Refusal => j.Fail("signing:callback_failed");
      case Redirect =>
      case Done => var moved := j.Transition(Signing);
    }
  }

  // ---- SubmitSignatures ----

  lemma {:induction false} UnknownStaysUnknown(ds: seq<Document>, sigs: seq<Submitted>, k: nat)
    requires k <= |sigs| && Attached(ds, sigs[..k]).None?
    ensures Attached(ds, sigs).None?
  {
    if k < |sigs| {
      assert sigs[..|sigs| - 1][..k] == sigs[..k];
      UnknownStaysUnknown(ds, sigs[..|sigs| - 1], k);
    } else {
      assert sigs[..k] == sigs;
    }
  }

  lemma OneMoreSubmitted(sigs: seq<Submitted>, i: nat)
    requires i < |sigs|
    ensures SubmittedIds(sigs[..i + 1]) == SubmittedIds(sigs[..i]) + {sigs[i].documentId}
    ensures sigs[..i + 1][..i] == sigs[..i] && sigs[..i + 1][i] == sigs[i]
  {
    assert sigs[..i + 1] == sigs[..i] + [sigs[i]];
  }

  method IdsOf(ds: seq<Document>) returns (want: set<string>)
    ensures want == Ids(ds)
  {
    want := {};
    for i := 0 to |ds|
      invariant want == Ids(ds[..i])
    {
      assert ds[..i + 1] == ds[..i] + [ds[i]];
      want := want + {ds[i].documentId};
    }
    assert ds[..|ds|] == ds;
  }

  /** The loop over the submission: every value on its document, every document crossed off. */
  method AttachSignatures(j: JobRecord, sigs: seq<Submitted>) returns (ok: bool)
    modifies j`documents
    ensures ok <==> Attached(old(j.documents), sigs).Some? && Ids(old(j.documents)) - SubmittedIds(sigs) == {}
    ensures ok ==> Some(j.documents) == Attached(old(j.documents), sigs)
  {
    ghost var was := j.documents;
    var want := IdsOf(j.documents);
    for i := 0 to |sigs|
      invariant Attached(was, sigs[..i]) == Some(j.documents)
      invariant want == Ids(was) - SubmittedIds(sigs[..i])
    {
      var found := j.Doc(sigs[i].documentId);
      OneMoreSubmitted(sigs, i);
      if found.None? {
        UnknownStaysUnknown(was, sigs, i + 1);
        return false;
      }
      j.documents := j.documents[found.value := j.documents[found.value].(signatureValue := sigs[i].signatureValue)];
      want := want - {sigs[i].documentId};
    }
    assert sigs[..|sigs|] == sigs;
    return want == {};
  }

  /** SubmitSignatures from the loaded job to the one it saves. */
  method SubmitToJob(cfg: Config, j: JobRecord, sigs: seq<Submitted>) returns (ok: bool)
    modifies j
    ensures ok <==> Submit(cfg, old(j.Value()), sigs).Some?
    ensures ok ==> Submit(cfg, old(j.Value()), sigs) == Some(j.Value())
  {
    if !j.flow.IsClientSide() || !Offered(cfg, j.flow) || !j.state.AwaitingClientSignature? { return false; }
    ok := AttachSignatures(j, sigs);
    if ok { var moved := j.Transition(Finalizing); }
  }
}
