/**
 Where the signed digests come from, in every run: one CalculateDigest answer supplies the
 digests, the person confirms exactly those (a pushed and bound authorization for CSC, a consent
 URL carrying their summary for TrustedX), and what is signed and finalized is paired with them
 document by document. All of it is evidence in the log, so it holds whatever Redis loses.
 */
module Provenance {
  import opened Wrappers
  import opened Jobs
  import opened Upstream
  import opened AuthCert
  import opened Flows
  import opened Machine
  import opened Copies
  import opened Shape
  import Certificates
  import Base64

  /** The job shows nothing of a CalculateDigest answer. */
  ghost predicate Blank(j: Job) {
    && j.digestsSummary == "" && j.signAlgo == ""
    && forall i :: 0 <= i < |j.documents| ==> j.documents[i].digest == ""
  }

  /** The job's digests, and for TrustedX its summary, are those of one answer for its certificate and sessions. */
  ghost predicate FromAnswer(j: Job, c: Event) {
    && c.Calculated? && Subject(c) == j.jobId
    && c.certificate == j.signingCert
    && c.sessions == Sessions(j.documents)
    && (forall i :: 0 <= i < |j.documents| ==>
          LastFor(c.answer.sessions, j.documents[i].sessionId) == Some(j.documents[i].digest))
    && (j.flow.IsTrustedX() ==>
          j.digestsSummary == c.answer.summary && j.digestsSummaryAlgo == c.answer.algorithm
            && j.signAlgo == c.answer.signatureAlgorithm)
  }

  /** The consent the job's OAuth state stands for carries the job's summary. */
  ghost predicate Consented(j: Job, c: Event) {
    && c.Consent? && Subject(c) == j.jobId && c.state == j.oauthState
    && c.identity == j.signIdentityId && c.summary == j.digestsSummary && c.summaryAlgo == j.digestsSummaryAlgo
  }

  /** The authorization the job's OAuth state stands for was pushed for the job's credential and digests. */
  ghost predicate PushedFor(j: Job, c: Event) {
    && c.Pushed? && Subject(c) == j.jobId && c.state == j.oauthState
    && c.credentialId == j.credentialId && Digests(j.documents) == Some(c.digests)
    && c.hash == j.hashAlgorithm && Fits(c.hash, c.digests) && c.accepted
  }

  /** The job's certificate is the one the provider described its credential with. */
  ghost predicate DescribedBy(j: Job, c: Event) {
    c.CredentialInfo? && Subject(c) == j.jobId && c.credentialId == j.credentialId && c.leaf == Some(j.signingCert)
  }

  /** What the person confirmed was found to be the job's credential and digests. */
  ghost predicate BoundTo(j: Job, c: Event) {
    c.Bound? && Subject(c) == j.jobId && c.credentialId == j.credentialId && Digests(j.documents) == Some(c.digests)
  }

  /** The digests a signing call sent, as the documents carry them, and the values it came back with. */
  function SentTexts(c: Event): seq<string> {
    match c
    case SignHash(j, _, _, _, _, _) => DigestTexts(j.documents)
    case ServerRaw(_, _, texts, _, _) => texts
    case DevicePush(_, _, text, _, _) => [text]
    case _ => []
  }

  /** The k-th value a signing call came back with. */
  predicate Returned(c: Event, k: nat, value: string) {
    match c
    case SignHash(_, _, _, _, _, returned) =>
      returned.Some? && k < |returned.value| && returned.value[k].Some?
        && value == Base64.Encode(returned.value[k].value)
    case ServerRaw(_, _, _, _, signatures) => k < |signatures| && value == signatures[k]
    case DevicePush(_, _, _, _, signature) => k == 0 && signature == Some(value)
    case _ => false
  }

  /** The job's values are what one signing call returned for the job's digests, in the same order. */
  ghost predicate SignedBy(j: Job, c: Event) {
    && KindOf(c) == SignKind && Subject(c) == j.jobId
    && SentTexts(c) == DigestTexts(j.documents)
    && (forall k :: 0 <= k < |j.documents| ==> Returned(c, k, j.documents[k].signatureValue))
    && (j.flow.IsCsc() ==> c.SignHash? && Digests(j.documents) == Some(c.digests))
  }

  /**
   VerifySignature accepted document k's value over document k's own digest, with the job's
   certificate and algorithms.
   */
  ghost predicate CheckedFor(j: Job, c: Event, k: nat)
    requires k < |j.documents|
  {
    && c.Checked? && Subject(c) == j.jobId && c.ok
    && c.certificate == j.signingCert && c.algo == j.signAlgo && c.hash == j.hashAlgorithm
    && Base64.Decode(j.documents[k].digest) == Some(c.digest)
    && j.documents[k].signatureValue == Base64.Encode(c.value)
  }

  /** The signing call behind the job's values, and for CSC the check behind each of them. */
  ghost predicate SignedIn(j: Job, log: seq<Event>) {
    && (exists c :: c in log && SignedBy(j, c))
    && (j.flow.IsCsc() ==> forall k :: 0 <= k < |j.documents| ==> ValueChecked(j, log, k))
  }

  ghost predicate ValueChecked(j: Job, log: seq<Event>, k: nat)
    requires k < |j.documents|
  {
    exists c :: c in log && CheckedFor(j, c, k)
  }

  /** The evidence behind a copy of a job that has not failed. */
  ghost predicate Sound(j: Job, log: seq<Event>) {
    || j.state.Failed?
    || if j.pendingLeg.ProfileLeg? || j.pendingLeg.CredentialLeg? then Blank(j)
       else
         && (exists c :: c in log && FromAnswer(j, c))
         && (j.flow.IsTrustedX() ==> exists c :: c in log && Consented(j, c))
         && (j.flow.IsCsc() ==> exists c :: c in log && DescribedBy(j, c))
         && (j.flow.IsCsc() ==> exists c :: c in log && PushedFor(j, c))
         && (j.flow.IsCsc() && j.pendingLeg.NoLeg? ==> exists c :: c in log && BoundTo(j, c))
         && (!j.flow.IsClientSide() && j.state.Finalizing? ==> SignedIn(j, log))
  }

  lemma SoundGrows(j: Job, log: seq<Event>, more: seq<Event>)
    requires Sound(j, log)
    ensures Sound(j, log + more)
  {
    assert forall c :: c in log ==> c in log + more;
    if SignedIn(j, log) { SignedInGrows(j, log, more); }
  }

  lemma SignedInGrows(j: Job, log: seq<Event>, more: seq<Event>)
    requires SignedIn(j, log)
    ensures SignedIn(j, log + more)
  {
    var c :| c in log && SignedBy(j, c);
    assert c in log + more;
    if j.flow.IsCsc() {
      forall k | 0 <= k < |j.documents| ensures ValueChecked(j, log + more, k) {
        assert ValueChecked(j, log, k);
        var d :| d in log && CheckedFor(j, d, k);
        assert d in log + more;
      }
    }
  }

  /** The fields the evidence is about. */
  ghost predicate SameDigests(a: Job, b: Job) {
    && a.jobId == b.jobId && a.flow == b.flow && a.signingCert == b.signingCert && a.oauthState == b.oauthState
    && a.digestsSummary == b.digestsSummary && a.digestsSummaryAlgo == b.digestsSummaryAlgo && a.signAlgo == b.signAlgo
    && a.credentialId == b.credentialId && a.hashAlgorithm == b.hashAlgorithm && a.signIdentityId == b.signIdentityId
    && Sessions(a.documents) == Sessions(b.documents) && DigestTexts(a.documents) == DigestTexts(b.documents)
  }

  lemma {:induction false} SameTextsSameDigests(a: seq<Document>, b: seq<Document>)
    requires DigestTexts(a) == DigestTexts(b)
    ensures Digests(a) == Digests(b)
  {
    assert |DigestTexts(a)| == |a| && |DigestTexts(b)| == |b|;
    if a != [] {
      assert a[0].digest == DigestTexts(a)[0] == DigestTexts(b)[0] == b[0].digest;
      assert DigestTexts(a[1..]) == DigestTexts(a)[1..] && DigestTexts(b[1..]) == DigestTexts(b)[1..];
      SameTextsSameDigests(a[1..], b[1..]);
    }
  }

  lemma SameAnswer(a: Job, b: Job, c: Event)
    requires SameDigests(a, b) && FromAnswer(a, c)
    ensures FromAnswer(b, c)
  {
    assert |Sessions(a.documents)| == |a.documents| && |Sessions(b.documents)| == |b.documents|;
    forall i | 0 <= i < |b.documents|
      ensures LastFor(c.answer.sessions, b.documents[i].sessionId) == Some(b.documents[i].digest)
    {
      assert b.documents[i].sessionId == Sessions(b.documents)[i] == a.documents[i].sessionId;
      assert b.documents[i].digest == DigestTexts(b.documents)[i] == a.documents[i].digest;
    }
  }

  /** Evidence carries over to a copy with the same digests, past every leg and not yet signed. */
  lemma SoundCarries(a: Job, b: Job, log: seq<Event>)
    requires Sound(a, log) && SameDigests(a, b) && a.pendingLeg == b.pendingLeg && !a.state.Failed?
    requires !a.pendingLeg.ProfileLeg? && !a.pendingLeg.CredentialLeg?
    requires b.state.Finalizing? && !b.flow.IsClientSide() ==> SignedIn(b, log)
    ensures Sound(b, log)
  {
    SameTextsSameDigests(a.documents, b.documents);
    var c :| c in log && FromAnswer(a, c);
    SameAnswer(a, b, c);
    if a.flow.IsTrustedX() {
      var d :| d in log && Consented(a, d);
      assert Consented(b, d);
    }
    if a.flow.IsCsc() {
      var i :| i in log && DescribedBy(a, i);
      assert DescribedBy(b, i);
      var d :| d in log && PushedFor(a, d);
      assert PushedFor(b, d);
      if a.pendingLeg.NoLeg? {
        var d' :| d' in log && BoundTo(a, d');
        assert BoundTo(b, d');
      }
    }
  }

  // ---- Job level ----

  lemma {:induction false} CoveredHaveDigests(ds: seq<Document>, answers: seq<SessionDigest>, k: nat)
    requires k < Covered(ds, answers)
    ensures k < |ds| && LastFor(answers, ds[k].sessionId).Some?
  {
    if k > 0 { CoveredHaveDigests(ds[1..], answers, k - 1); }
  }

  /** A complete answer applied to a blank job leaves exactly that answer on it. */
  lemma CalculatedFromAnswer(j: Job, answer: Option<DigestAnswer>)
    requires CalculateDigests(j, j.signingCert, answer).ok && (Blank(j) || !j.flow.IsTrustedX())
    ensures
      var o := CalculateDigests(j, j.signingCert, answer);
      && o.events != [] && FromAnswer(o.job, o.events[0])
      && o.job.signIdentityId == j.signIdentityId && o.job.credentialId == j.credentialId
        && o.job.signingCert == j.signingCert
  {
    var o := CalculateDigests(j, j.signingCert, answer);
    forall i | 0 <= i < |j.documents| ensures LastFor(answer.value.sessions, j.documents[i].sessionId).Some? {
      CoveredHaveDigests(j.documents, answer.value.sessions, i);
    }
    assert Sessions(o.job.documents) == Sessions(j.documents);
  }

  lemma BeginConsentIsSound(j: Job, digests: Option<DigestAnswer>, state: Option<string>, log: seq<Event>)
    requires j.flow.IsTrustedX() && Blank(j) && BeginConsent(j, digests, state).ok
    requires j.state.Preparing? || j.state.AwaitingAuthorization? || j.state.Failed?
    ensures
      var o := BeginConsent(j, digests, state);
      && (exists c :: c in log + o.events && FromAnswer(o.job, c))
      && (exists c :: c in log + o.events && Consented(o.job, c))
  {
    var c := CalculateDigests(j, j.signingCert, digests);
    var o := BeginConsent(j, digests, state);
    CalculatedFromAnswer(j, digests);
    assert SameButLeg(c.job, o.job);
    assert FromAnswer(o.job, c.events[0]);
    assert c.events[0] in o.events && o.events[|o.events| - 1] in o.events;
    assert c.events[0] in log + o.events && o.events[|o.events| - 1] in log + o.events;
    assert Consented(o.job, o.events[|o.events| - 1]);
  }

  ghost predicate SameButLeg(a: Job, b: Job) {
    b == a.(oauthState := b.oauthState, pendingLeg := b.pendingLeg)
  }

  lemma PreparedIsSound(id: string, input: PrepareInput, ans: Answers, log: seq<Event>)
    requires input.flow.Registered() && ValidBatch(input)
    ensures Sound(Prepared(id, input, ans).job, log + Prepared(id, input, ans).events)
  {
    var c := CreateSessions(NewJob(id, input), ans.sessions);
    CreatedIsDrafted(id, input, ans.sessions);
    assert Blank(c.job);
    if c.ok { BegunIsSound(c.job, input, ans, log); }
  }

  lemma BegunIsSound(j: Job, input: PrepareInput, ans: Answers, log: seq<Event>)
    requires Blank(j) && j.flow == input.flow && j.state.Preparing? && j.flow.Registered() && j.pendingLeg.NoLeg?
    ensures Sound(Begin(j, input, ans).job, log + Begin(j, input, ans).events)
  {
    var b := Begin(j, input, ans);
    if b.ok {
      if input.flow.IsClientSide() {
        var j1 := j.(signingCert := input.signingCert, authCert := input.authCert);
        CalculatedFromAnswer(j1, ans.digests);
        CalculatedIsAlike(j1, j1.signingCert, ans.digests);
        var o := CalculateDigests(j1, j1.signingCert, ans.digests);
        assert FromAnswer(b.job, b.events[0]) && b.events[0] in log + b.events;
      } else if input.flow.IsCsc() {
      } else {
        var j1 :=
          if input.signIdentityId != "" && input.signingCert != "" && input.authCert != "" then
            j.(signIdentityId := input.signIdentityId, signingCert := input.signingCert, authCert := input.authCert)
          else j;
        BegunTrustedXIsSound(j1, ans, log);
      }
    }
  }

  lemma AwaitingIsSound(j: Job, log: seq<Event>)
    requires j.flow.IsTrustedX() && j.state.Preparing? && j.pendingLeg.SignLeg?
    requires exists c :: c in log && FromAnswer(j, c)
    requires exists c :: c in log && Consented(j, c)
    ensures Sound(Transitioned(j, AwaitingAuthorization), log)
  {
    var j' := Transitioned(j, AwaitingAuthorization);
    var c :| c in log && FromAnswer(j, c);
    assert FromAnswer(j', c);
    var d :| d in log && Consented(j, d);
    assert Consented(j', d);
  }

  lemma BegunTrustedXIsSound(j: Job, ans: Answers, log: seq<Event>)
    requires Blank(j) && j.state.Preparing? && j.flow.IsTrustedX() && BeginTrustedX(j, ans).ok
    ensures Sound(Transitioned(BeginTrustedX(j, ans).job, AwaitingAuthorization), log + BeginTrustedX(j, ans).events)
  {
    var o := BeginTrustedX(j, ans);
    if j.signIdentityId != "" && j.signingCert != "" && j.authCert != "" {
      BeginConsentIsSound(j, ans.digests, ans.state, log);
      BeginConsentIsAlike(j, ans.digests, ans.state);
      AwaitingIsSound(o.job, log + o.events);
    }
  }

  lemma ProfileIsSound(j: Job, ans: Answers, log: seq<Event>)
    requires j.flow.IsTrustedX() && j.pendingLeg.ProfileLeg? && j.state.AwaitingAuthorization? && Blank(j)
    requires AdvanceProfile(j, ans).verdict.Redirect?
    ensures Sound(AdvanceProfile(j, ans).job, log + AdvanceProfile(j, ans).events)
  {
    var ids := ans.identities.value;
    var j3 := j.(profileToken := ans.token.value.access, signIdentityId := ids.signing.value,
                 signingCert := ids.signingCert.value, authCert := ids.authCert.value);
    BeginConsentIsSound(j3, ans.digests, ans.state, log);
    BeginConsentIsAlike(j3, ans.digests, ans.state);
  }

  lemma CredentialIsSound(j: Job, token: Token, ans: Answers, log: seq<Event>)
    requires j.flow.IsCsc() && j.pendingLeg.CredentialLeg? && j.state.AwaitingAuthorization?
    requires AdvanceCredential(j, token, ans).verdict.Redirect?
    ensures Sound(AdvanceCredential(j, token, ans).job, log + AdvanceCredential(j, token, ans).events)
  {
    var a := AdvanceCredential(j, token, ans);
    var cred := ans.credential.value;
    var j1 := j.(credentialId := cred.credentialId, signingCert := cred.leaf.value);
    var c := CalculateDigests(j1, j1.signingCert, ans.digests);
    CalculatedFromAnswer(j1, ans.digests);
    CalculatedIsAlike(j1, j1.signingCert, ans.digests);
    assert FromAnswer(a.job, c.events[0]);
    BatchHashFits(Digests(c.job.documents).value, a.job.hashAlgorithm);
    var p := a.events[|a.events| - 1];
    assert PushedFor(a.job, p) && DescribedBy(a.job, a.events[0]);
    assert a.events[1] == c.events[0] && a.events[0] in a.events && a.events[1] in a.events && p in a.events;
    assert forall e :: e in a.events ==> e in log + a.events;
  }

  lemma BoundIsSound(j: Job, ans: Answers, log: seq<Event>)
    requires Sound(j, log) && j.flow.IsCsc() && j.pendingLeg.SignLeg? && j.state.AwaitingAuthorization?
    requires AdvanceCsc(j, ans).verdict.Done?
    ensures Sound(Transitioned(AdvanceCsc(j, ans).job, Signing), log + AdvanceCsc(j, ans).events)
  {
    var a := AdvanceCsc(j, ans);
    var j' := Transitioned(a.job, Signing);
    assert BoundTo(j', a.events[0]) && a.events == [a.events[0]];
    BindingCarries(j, j', log, a.events[0]);
  }

  /** A job past its last leg keeps the evidence it had, and has its binding besides. */
  lemma BindingCarries(j: Job, j': Job, log: seq<Event>, b: Event)
    requires Sound(j, log) && j.flow.IsCsc() && j.pendingLeg.SignLeg? && j.state.AwaitingAuthorization?
      && BoundTo(j', b)
    requires j' == j.(pkceVerifier := j'.pkceVerifier, signingToken := j'.signingToken, pendingLeg := NoLeg,
                      state := Signing)
    ensures Sound(j', log + [b])
  {
    var c :| c in log && FromAnswer(j, c);
    EvidenceCarries(j, j', c);
    var i :| i in log && DescribedBy(j, i);
    EvidenceCarries(j, j', i);
    var p :| p in log && PushedFor(j, p);
    EvidenceCarries(j, j', p);
    assert c in log + [b] && i in log + [b] && p in log + [b] && b in log + [b];
  }

  lemma EvidenceCarries(j: Job, j': Job, c: Event)
    requires j' == j.(pkceVerifier := j'.pkceVerifier, signingToken := j'.signingToken, pendingLeg := NoLeg,
                      state := Signing)
    ensures FromAnswer(j, c) ==> FromAnswer(j', c)
    ensures DescribedBy(j, c) ==> DescribedBy(j', c)
    ensures PushedFor(j, c) ==> PushedFor(j', c)
    ensures Consented(j, c) ==> Consented(j', c)
  {
  }

  lemma ConsentedIsSound(j: Job, ans: Answers, log: seq<Event>)
    requires Sound(j, log) && j.flow.IsTrustedX() && j.pendingLeg.SignLeg? && j.state.AwaitingAuthorization?
    requires AdvanceTrustedX(j, ans).verdict.Done?
    ensures Sound(Transitioned(AdvanceTrustedX(j, ans).job, Signing), log)
  {
    ConsentCarries(j, Transitioned(AdvanceTrustedX(j, ans).job, Signing), log);
  }

  lemma ConsentCarries(j: Job, j': Job, log: seq<Event>)
    requires Sound(j, log) && j.flow.IsTrustedX() && j.pendingLeg.SignLeg? && j.state.AwaitingAuthorization?
    requires j' == j.(pkceVerifier := j'.pkceVerifier, signingToken := j'.signingToken, pendingLeg := NoLeg,
                      state := Signing)
    ensures Sound(j', log)
  {
    var c :| c in log && FromAnswer(j, c);
    EvidenceCarries(j, j', c);
    var d :| d in log && Consented(j, d);
    EvidenceCarries(j, j', d);
  }

  lemma CalledBackIsSound(j: Job, declined: bool, ans: Answers, log: seq<Event>)
    requires WellFormed(j) && Sound(j, log)
    ensures Sound(CalledBack(j, declined, ans).job, log + CalledBack(j, declined, ans).events)
    ensures
      var a := CalledBack(j, declined, ans);
      j.flow.IsTrustedX() && j.pendingLeg.ProfileLeg? && !a.job.state.Failed? ==>
        Certificates.Identified(a.job, a.events)
  {
    var a := AdvanceCallback(j, ans);
    if !declined && !j.state.Failed? && !a.verdict.Refusal? {
      CallbackAdvances(j, ans);
      if j.flow.IsTrustedX() {
        if a.verdict.Redirect? {
          ProfileIsSound(j, ans, log);
          Certificates.ProfileIsIdentified(j, ans);
          assert a.events[0] in a.events;
        } else {
          ConsentedIsSound(j, ans, log);
          assert log + a.events == log;
        }
      } else if a.verdict.Redirect? {
        CredentialIsSound(j.(pkceVerifier := ""), ans.token.value, ans, log);
      } else {
        BoundIsSound(j, ans, log);
      }
    } else if !declined && j.state.Failed? {
      CallbackAdvances(j, ans);
    }
  }

  lemma SubmittedIsSound(cfg: Config, j: Job, sigs: seq<Submitted>, log: seq<Event>)
    requires WellFormed(j) && Sound(j, log) && Submit(cfg, j, sigs).Some?
    ensures Sound(Submit(cfg, j, sigs).value, log)
  {
    AttachedKeeps(j.documents, sigs);
    var j' := Submit(cfg, j, sigs).value;
    assert Sessions(j.documents) == Sessions(j'.documents) && DigestTexts(j.documents) == DigestTexts(j'.documents);
    SoundCarries(j, j', log);
  }

  /** A successful signing call is the evidence for the values it put on the documents. */
  lemma SigningIsEvidence(j: Job, ans: SignAnswers)
    ensures
      var o := Sign(j, ans);
      && SameDigests(j, o.job)
      && (o.ok && !j.flow.EidScan? ==> SignedIn(o.job, o.events))
    ensures
      var o := PushDevice(j, ans);
      && SameDigests(j, o.job)
      && (o.ok && !j.flow.IsCsc() ==> SignedIn(o.job, o.events))
  {
    if j.flow.IsCsc() { CscIsEvidence(j, ans); } else { ServerIsEvidence(j, ans); }
    DeviceIsEvidence(j, ans);
  }

  lemma CscIsEvidence(j: Job, ans: SignAnswers)
    requires j.flow.IsCsc()
    ensures var o := SignCsc(j, ans); SameDigests(j, o.job) && (o.ok ==> SignedIn(o.job, o.events))
  {
    var o := SignCsc(j, ans);
    assert Sessions(j.documents) == Sessions(o.job.documents)
      && DigestTexts(j.documents) == DigestTexts(o.job.documents);
    SameTextsSameDigests(j.documents, o.job.documents);
    if o.ok {
      forall k | 0 <= k < |j.documents|
        ensures Returned(o.events[0], k, o.job.documents[k].signatureValue)
        ensures ValueChecked(o.job, o.events, k)
      {
        CscValueIsChecked(j, ans, k);
      }
      assert SignedBy(o.job, o.events[0]) && o.events[0] in o.events;
    }
  }

  /** The value on document k is the k-th returned, checked over document k's digest. */
  lemma CscValueIsChecked(j: Job, ans: SignAnswers, k: nat)
    requires SignCsc(j, ans).ok && k < |j.documents|
    ensures
      var o := SignCsc(j, ans);
      && |o.job.documents| == |j.documents|
      && Returned(o.events[0], k, o.job.documents[k].signatureValue)
      && ValueChecked(o.job, o.events, k)
  {
    var (o, digests, returned) := (SignCsc(j, ans), Digests(j.documents).value, ans.hashes.value);
    var accepted := AcceptedPrefix(returned, ans.verified, |j.documents|);
    DigestsAt(j.documents, k);
    ChecksAt(j, digests, returned, ans.verified, k);
    assert o.job.documents[k].signatureValue == Encoded(accepted)[k] == Base64.Encode(accepted[k]);
    var c := Checked(j, j.signingCert, j.signAlgo, j.hashAlgorithm, digests[k], accepted[k], true);
    assert c in o.events && CheckedFor(o.job, c, k);
  }

  lemma ServerIsEvidence(j: Job, ans: SignAnswers)
    requires !j.flow.IsCsc()
    ensures var o := SignServer(j, ans); SameDigests(j, o.job) && (o.ok ==> SignedIn(o.job, o.events))
  {
    var o := SignServer(j, ans);
    assert Sessions(j.documents) == Sessions(o.job.documents)
      && DigestTexts(j.documents) == DigestTexts(o.job.documents);
    if o.ok { assert SignedBy(o.job, o.events[0]); }
  }

  lemma DeviceIsEvidence(j: Job, ans: SignAnswers)
    ensures
      var o := PushDevice(j, ans);
      && SameDigests(j, o.job)
      && (o.ok && !j.flow.IsCsc() ==> SignedIn(o.job, o.events))
  {
    var o := PushDevice(j, ans);
    assert Sessions(j.documents) == Sessions(o.job.documents)
      && DigestTexts(j.documents) == DigestTexts(o.job.documents);
    if o.ok && !j.flow.IsCsc() { assert SignedBy(o.job, o.events[0]); }
  }

  lemma SignedInCarries(a: Job, b: Job, log: seq<Event>, more: seq<Event>)
    requires SignedIn(a, more) && b == a.(state := b.state)
    ensures SignedIn(b, log + more)
  {
    var c :| c in more && SignedBy(a, c);
    assert SignedBy(b, c) && c in log + more;
    if a.flow.IsCsc() {
      forall k | 0 <= k < |b.documents| ensures ValueChecked(b, log + more, k) { CheckCarries(a, b, log, more, k); }
    }
  }

  lemma CheckCarries(a: Job, b: Job, log: seq<Event>, more: seq<Event>, k: nat)
    requires b == a.(state := b.state) && k < |a.documents| && ValueChecked(a, more, k)
    ensures ValueChecked(b, log + more, k)
  {
    var d :| d in more && CheckedFor(a, d, k);
    assert CheckedFor(b, d, k) && d in log + more;
  }

  lemma SignedIsSound(j: Job, o: Outcome, log: seq<Event>)
    requires WellFormed(j) && j.state.Signing? && Sound(j, log)
    requires SameDigests(j, o.job) && Alike(j, o.job) && o.job.pendingLeg == j.pendingLeg
    requires o.ok ==> SignedIn(o.job, o.events)
    ensures Sound(AfterSign(o).job, log + o.events)
  {
    SoundGrows(j, log, o.events);
    if o.ok {
      var j' := AfterSign(o).job;
      SignedInCarries(o.job, j', log, o.events);
      SoundCarries(j, j', log + o.events);
    }
  }

  lemma PublishedIsSound(j: Job, o: Outcome, log: seq<Event>)
    requires WellFormed(j) && j.state.Signing? && Sound(j, log)
    requires SameDigests(j, o.job) && Alike(j, o.job) && o.job.pendingLeg == j.pendingLeg
    ensures Sound(o.job, log)
  {
    SoundCarries(j, o.job, log);
  }

  lemma ReadyIsSound(j: Job, j': Job, log: seq<Event>)
    requires Sound(j, log) && WellFormed(j) && j.state.Finalizing?
    requires j' == j.(documents := ReadyDocuments(j.documents), state := State.Ready)
    ensures Sound(j', log)
  {
    assert Sessions(j.documents) == Sessions(j'.documents) && DigestTexts(j.documents) == DigestTexts(j'.documents);
    SoundCarries(j, j', log);
  }

  lemma FinalizedIsSound(cfg: Config, j: Job, taken: bool, log: seq<Event>)
    requires WellFormed(j) && j.state.Finalizing? && Sound(j, log)
    ensures Sound(AfterFinalize(Finalized(cfg, j, taken)).job, log)
  {
    var o := Finalized(cfg, j, taken);
    if o.ok { ReadyIsSound(j, o.job, log); }
  }

  // ---- Every copy, in every run ----

  ghost predicate AllSound(s: Sys) {
    forall j :: Known(s, j) ==> Sound(j, s.log)
  }

  ghost predicate Truthful(s: Sys, e: Effect) {
    forall j :: Makes(e, j) ==> Sound(j, s.log + Made(s, e))
  }

  lemma HandlerIsTruthful(cfg: Config, s: Sys, step: Step)
    requires Shaped(s) && AllSound(s) && (step.Prepare? || step.Callback? || step.SubmitSignatures?)
    ensures Truthful(s, EffectOf(cfg, s, step))
  {
    var e := EffectOf(cfg, s, step);
    match step
    case Prepare(id, input, ans, save) => if Admitted(cfg, input) { PreparedIsSound(id, input, ans, s.log); }
    case Callback(state, declined, ans, _, _, _) =>
      if e.Settles? {
        StoredIsWellFormed(s, s.index[state]);
        CalledBackIsSound(e.before, declined, ans, s.log);
        SoundGrows(e.after, s.log + e.events, [Enqueue(e.after)]);
        assert s.log + e.events + [Enqueue(e.after)] == s.log + (e.events + [Enqueue(e.after)]);
      }
    case SubmitSignatures(id, sigs, _, _) =>
      if e.Settles? {
        StoredIsWellFormed(s, id);
        SubmittedIsSound(cfg, e.before, sigs, s.log);
        SoundGrows(e.after, s.log, Made(s, e));
      }
    case _ =>
  }

  lemma SignIsTruthful(s: Sys, w: nat, ans: SignAnswers)
    requires Shaped(s) && AllSound(s) && s.WorkOf(w).ToSign?
    ensures
      var j := s.WorkOf(w).job;
      Truthful(s, Works(w, Sign(j, ans).events, Signed(j, Sign(j, ans))))
  {
    HeldIsWellFormed(s, w);
    var j := s.WorkOf(w).job;
    var o := Sign(j, ans);
    SigningIsAlike(j, ans);
    SigningIsEvidence(j, ans);
    if j.flow.EidScan? && o.ok {
      PublishedIsSound(j, o, s.log);
      SoundGrows(o.job, s.log, o.events);
    } else {
      SignedIsSound(j, o, s.log);
    }
  }

  lemma PushIsTruthful(s: Sys, w: nat, ans: SignAnswers)
    requires Shaped(s) && AllSound(s) && s.WorkOf(w).ToPush?
    ensures
      var o := PushDevice(s.WorkOf(w).job, ans);
      Truthful(s, Works(w, o.events, AfterSign(o)))
  {
    HeldIsWellFormed(s, w);
    var j := s.WorkOf(w).job;
    SigningIsAlike(j, ans);
    SigningIsEvidence(j, ans);
    SignedIsSound(j, PushDevice(j, ans), s.log);
  }

  lemma FinalizeIsTruthful(cfg: Config, s: Sys, w: nat, taken: bool)
    requires Shaped(s) && AllSound(s) && s.WorkOf(w).ToFinalize?
    ensures
      var o := Finalized(cfg, s.WorkOf(w).job, taken);
      Truthful(s, Works(w, o.events, AfterFinalize(o)))
  {
    HeldIsWellFormed(s, w);
    var j := s.WorkOf(w).job;
    var o := Finalized(cfg, j, taken);
    FinalizedIsSound(cfg, j, taken, s.log);
    SoundGrows(AfterFinalize(o).job, s.log, o.events);
  }

  lemma WorkerIsTruthful(cfg: Config, s: Sys, step: Step)
    requires Shaped(s) && AllSound(s) && (step.WorkerSign? || step.WorkerPush? || step.WorkerFinalize?)
    ensures Truthful(s, EffectOf(cfg, s, step))
  {
    match step
    case WorkerSign(w, ans) => if s.WorkOf(w).ToSign? { SignIsTruthful(s, w, ans); }
    case WorkerPush(w, ans) => if s.WorkOf(w).ToPush? { PushIsTruthful(s, w, ans); }
    case WorkerFinalize(w, taken) => if s.WorkOf(w).ToFinalize? { FinalizeIsTruthful(cfg, s, w, taken); }
    case _ =>
  }

  lemma QuietWorkerMakesNothing(cfg: Config, s: Sys, step: Step)
    requires step.WorkerLoad? || step.WorkerPublish? || step.WorkerSave? || step.WorkerCrash?
    ensures s.log + Made(s, EffectOf(cfg, s, step)) == s.log
  {
  }

  lemma QuietWorkerIsTruthful(cfg: Config, s: Sys, step: Step)
    requires Shaped(s) && AllSound(s)
      && (step.WorkerLoad? || step.WorkerPublish? || step.WorkerSave? || step.WorkerCrash?)
    ensures Truthful(s, EffectOf(cfg, s, step))
  {
    var e := EffectOf(cfg, s, step);
    QuietWorkerMakesNothing(cfg, s, step);
    if s.WorkOf(step.w).Copy() { HeldIsWellFormed(s, step.w); }
    if s.WorkOf(step.w).Got? && s.WorkOf(step.w).id in s.jobs { StoredIsWellFormed(s, s.WorkOf(step.w).id); }
  }

  lemma EffectIsTruthful(cfg: Config, s: Sys, step: Step)
    requires Shaped(s) && AllSound(s)
    ensures Truthful(s, EffectOf(cfg, s, step))
  {
    if step.Prepare? || step.Callback? || step.SubmitSignatures? {
      HandlerIsTruthful(cfg, s, step);
    } else if step.WorkerSign? || step.WorkerPush? || step.WorkerFinalize? {
      WorkerIsTruthful(cfg, s, step);
    } else if step.WorkerLoad? || step.WorkerPublish? || step.WorkerSave? || step.WorkerCrash? {
      QuietWorkerIsTruthful(cfg, s, step);
    }
  }

  lemma SoundStep(cfg: Config, s: Sys, step: Step)
    requires Shaped(s) && AllSound(s)
    ensures AllSound(Next(cfg, s, step))
  {
    var e := EffectOf(cfg, s, step);
    EffectIsHonest(cfg, s, step);
    EffectIsTruthful(cfg, s, step);
    LogGrows(s, e);
    forall j | Known(Effected(s, e), j) ensures Sound(j, s.log + Made(s, e)) {
      OnlyKnownCopies(s, e, j);
      if !Makes(e, j) { SoundGrows(j, s.log, Made(s, e)); }
    }
  }

  lemma {:induction false} AlwaysSound(run: seq<Move>)
    ensures AllSound(After(run))
  {
    if run != [] {
      AlwaysSound(run[..|run| - 1]);
      AlwaysShaped(run[..|run| - 1]);
      SoundStep(run[|run| - 1].cfg, After(run[..|run| - 1]), run[|run| - 1].step);
    }
  }
}
