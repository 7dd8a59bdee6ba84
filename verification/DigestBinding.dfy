/**
 What the log of any run shows about every signing and finalize call: it was made with exactly
 the digests CalculateDigest answered and the person confirmed, document by document.
 */
module DigestBinding {
  import opened Wrappers
  import opened Bytes
  import opened Jobs
  import opened Upstream
  import opened AuthCert
  import opened Flows
  import opened Machine
  import opened Copies
  import opened Shape
  import opened Provenance
  import opened Certificates
  import AtMostOnce
  import Base64
  import Ecdsa

  /** Before the person confirms anything: still in Prepare, or on a leg that precedes the signature's. */
  predicate Calculable(j: Job) {
    j.state.Preparing? || j.pendingLeg.ProfileLeg? || j.pendingLeg.CredentialLeg?
  }

  /** A call's arguments are those of the job it was made for. */
  ghost predicate Faithful(e: Event) {
    match e
    case Calculated(j, certificate, sessions, signAsPdf, createNewEdoc, _) =>
      && (j.state.Failed? || Blank(j)) && Calculable(j)
      && certificate == j.signingCert && sessions == Sessions(j.documents)
      && (forall i :: 0 <= i < |j.documents| ==> (signAsPdf <==> j.documents[i].format.Pades?))
      && (createNewEdoc <==> j.documents != [] && !j.documents[0].format.Pades? && j.documents[0].operation.Create?)
    case SignHash(j, credentialId, digests, hash, algo, _) =>
      && j.flow.IsCsc() && j.state.Signing? && j.pendingLeg.NoLeg?
      && Digests(j.documents) == Some(digests) && credentialId == j.credentialId && hash == j.hashAlgorithm
        && algo == j.signAlgo
    case Checked(j, certificate, algo, hash, _, _, _) =>
      j.flow.IsCsc() && j.state.Signing? && certificate == j.signingCert && algo == j.signAlgo
        && hash == j.hashAlgorithm
    case ServerRaw(j, identity, texts, algo, _) =>
      && j.flow.IsTrustedX() && !j.flow.EidScan? && j.state.Signing? && j.pendingLeg.NoLeg?
      && texts == DigestTexts(j.documents) && identity == j.signIdentityId && algo == j.signAlgo
    case DevicePush(j, identity, text, code, _) =>
      && j.flow.EidScan? && j.state.Signing? && j.pendingLeg.NoLeg?
      && [text] == DigestTexts(j.documents) && identity == j.signIdentityId && code == j.verificationCode
    case Finalize(j, entries, _, _) => j.state.Finalizing? && WellFormed(j) && Entries(j.documents) == Some(entries)
    case _ => true
  }

  lemma CalculatedIsFaithful(j: Job, certificate: string, answer: Option<DigestAnswer>)
    requires OneFormat(j.documents) && (j.state.Failed? || Blank(j)) && Calculable(j) && certificate == j.signingCert
    ensures forall e :: e in CalculateDigests(j, certificate, answer).events ==> Faithful(e)
  {
  }

  lemma BeginConsentIsFaithful(j: Job, digests: Option<DigestAnswer>, state: Option<string>)
    requires OneFormat(j.documents) && (j.state.Failed? || Blank(j)) && Calculable(j)
    ensures forall e :: e in BeginConsent(j, digests, state).events ==> Faithful(e)
  {
    CalculatedIsFaithful(j, j.signingCert, digests);
  }

  lemma PreparedIsFaithful(id: string, input: PrepareInput, ans: Answers)
    requires input.flow.Registered() && ValidBatch(input)
    ensures forall e :: e in Prepared(id, input, ans).events ==> Faithful(e)
  {
    var c := CreateSessions(NewJob(id, input), ans.sessions).job;
    CreatedIsDrafted(id, input, ans.sessions);
    assert Blank(c);
    if input.flow.IsClientSide() {
      CalculatedIsFaithful(c.(signingCert := input.signingCert, authCert := input.authCert), input.signingCert,
                           ans.digests);
    } else if input.flow.IsTrustedX() {
      BeginConsentIsFaithful(c, ans.digests, ans.state);
      var j1 :=
        c.(signIdentityId := input.signIdentityId, signingCert := input.signingCert, authCert := input.authCert);
      BeginConsentIsFaithful(j1, ans.digests, ans.state);
    }
  }

  lemma CalledBackIsFaithful(j: Job, declined: bool, ans: Answers, log: seq<Event>)
    requires WellFormed(j) && Sound(j, log)
    ensures forall e :: e in CalledBack(j, declined, ans).events ==> Faithful(e)
  {
    if j.flow.IsTrustedX() && j.pendingLeg.ProfileLeg? {
      ProfileIsFaithful(j, ans);
    } else if j.flow.IsCsc() && j.pendingLeg.CredentialLeg? && ans.token.Some? {
      CredentialIsFaithful(j.(pkceVerifier := ""), ans.token.value, ans);
    }
  }

  lemma ProfileIsFaithful(j: Job, ans: Answers)
    requires OneFormat(j.documents) && (j.state.Failed? || Blank(j)) && Calculable(j)
    ensures forall e :: e in AdvanceProfile(j, ans).events ==> Faithful(e)
  {
    if ans.token.Some? && ans.identities.Some? && ans.identities.value.signing.Some? {
      var ids := ans.identities.value;
      var j3 := j.(profileToken := ans.token.value.access, signIdentityId := ids.signing.value,
                   signingCert := if ids.signingCert.None? then "" else ids.signingCert.value,
                   authCert := if ids.authCert.None? then "" else ids.authCert.value);
      BeginConsentIsFaithful(j3, ans.digests, ans.state);
    }
  }

  lemma CredentialIsFaithful(j: Job, token: Token, ans: Answers)
    requires OneFormat(j.documents) && (j.state.Failed? || Blank(j)) && Calculable(j)
    ensures forall e :: e in AdvanceCredential(j, token, ans).events ==> Faithful(e)
  {
    if ans.credential.Some? && ans.credential.value.leaf.Some? {
      var cred := ans.credential.value;
      var j1 := j.(credentialId := cred.credentialId, signingCert := cred.leaf.value);
      CalculatedIsFaithful(j1, j1.signingCert, ans.digests);
    }
  }

  lemma SigningIsFaithful(j: Job, ans: SignAnswers)
    requires WellFormed(j) && j.state.Signing?
    ensures forall e :: e in Sign(j, ans).events ==> Faithful(e)
    ensures j.flow.EidScan? ==> forall e :: e in PushDevice(j, ans).events ==> Faithful(e)
  {
    if j.flow.IsCsc() { SignCscCalls(j, ans); SignHashIsFaithful(j, ans); }
  }

  lemma SignHashIsFaithful(j: Job, ans: SignAnswers)
    requires WellFormed(j) && j.state.Signing? && j.flow.IsCsc()
    ensures var events := SignCsc(j, ans).events; events != [] ==>
      Faithful(events[0]) && forall e :: e in events[1..] ==> e.Checked?
  {
    SignCscCalls(j, ans);
  }

  lemma FinalizeIsFaithful(cfg: Config, j: Job, taken: bool)
    requires WellFormed(j) && j.state.Finalizing?
    ensures forall e :: e in Finalized(cfg, j, taken).events ==> Faithful(e)
  {
    forall e | e in Finalized(cfg, j, taken).events ensures Faithful(e) {
      if e.Finalize? { FinalizeRequest(cfg, j, taken, e); }
    }
  }

  lemma FinalizeRequest(cfg: Config, j: Job, taken: bool, e: Event)
    requires e in Finalized(cfg, j, taken).events && e.Finalize?
    ensures e.job == j && Entries(j.documents) == Some(e.entries) && e.taken == taken
  {
  }

  lemma HandlerIsFaithful(cfg: Config, s: Sys, step: Step)
    requires Shaped(s) && AllSound(s)
      && (step.Prepare? || step.Callback? || step.SubmitSignatures? || step.ArchiveJobDocument?)
    ensures forall e :: e in Made(s, EffectOf(cfg, s, step)) ==> Faithful(e)
  {
    var e := EffectOf(cfg, s, step);
    match step
    case Prepare(id, input, ans, save) => if Admitted(cfg, input) { PreparedIsFaithful(id, input, ans); }
    case Callback(state, declined, ans, _, _, _) =>
      if e.Settles? {
        StoredIsWellFormed(s, s.index[state]);
        CalledBackIsFaithful(e.before, declined, ans, s.log);
        SettledIsFaithful(s, e);
      }
    case _ =>
  }

  lemma SettledIsFaithful(s: Sys, e: Effect)
    requires e.Settles? && forall c :: c in e.events ==> Faithful(c)
    ensures forall c :: c in Made(s, e) ==> Faithful(c)
  {
  }

  lemma WorkerIsFaithful(s: Sys, step: Step)
    requires Shaped(s) && (step.WorkerSign? || step.WorkerPush?)
    ensures step.WorkerSign? && s.WorkOf(step.w).ToSign? ==>
      forall e :: e in Sign(s.WorkOf(step.w).job, step.answers).events ==> Faithful(e)
    ensures step.WorkerPush? && s.WorkOf(step.w).ToPush? ==>
      forall e :: e in PushDevice(s.WorkOf(step.w).job, step.answers).events ==> Faithful(e)
  {
    if s.WorkOf(step.w).ToSign? || s.WorkOf(step.w).ToPush? {
      HeldIsWellFormed(s, step.w);
      SigningIsFaithful(s.WorkOf(step.w).job, step.answers);
    }
  }

  lemma MadeIsFaithful(cfg: Config, s: Sys, step: Step)
    requires Shaped(s) && AllSound(s)
    ensures forall e :: e in Made(s, EffectOf(cfg, s, step)) ==> Faithful(e)
  {
    if step.Prepare? || step.Callback? || step.SubmitSignatures? || step.ArchiveJobDocument? {
      HandlerIsFaithful(cfg, s, step);
    } else if step.WorkerSign? {
      SignMakes(cfg, s, step);
      WorkerIsFaithful(s, step);
    } else if step.WorkerPush? {
      PushMakes(cfg, s, step);
      WorkerIsFaithful(s, step);
    } else if step.WorkerFinalize? {
      FinalizeMakes(cfg, s, step);
      if s.WorkOf(step.w).ToFinalize? {
        HeldIsWellFormed(s, step.w);
        FinalizeIsFaithful(cfg, s.WorkOf(step.w).job, step.taken);
      }
    } else {
      SilentMakes(cfg, s, step);
    }
  }

  lemma {:induction false} AlwaysFaithful(run: seq<Move>, e: Event)
    requires e in After(run).log
    ensures Faithful(e)
  {
    if run != [] {
      var (s, m) := (After(run[..|run| - 1]), run[|run| - 1]);
      LogGrows(s, EffectOf(m.cfg, s, m.step));
      if e in s.log {
        AlwaysFaithful(run[..|run| - 1], e);
      } else {
        AlwaysShaped(run[..|run| - 1]);
        AlwaysSound(run[..|run| - 1]);
        MadeIsFaithful(m.cfg, s, m.step);
      }
    }
  }

  lemma {:induction false} EvidenceIsSound(run: seq<Move>, e: Event)
    requires e in After(run).log && Evidence(e)
    ensures Faithful(e) && WellFormed(e.job) && Sound(e.job, After(run).log)
  {
    AlwaysFaithful(run, e);
    AlwaysShaped(run);
    AlwaysSound(run);
    assert Recorded(After(run), e.job) && Known(After(run), e.job);
  }

  /**
   What stands behind a signHash call: the credential's description, the digests, the push and what
   it was bound to.
   */
  ghost predicate Confirmed(log: seq<Event>, e: Event, i: Event, c: Event, p: Event, b: Event)
    requires e.SignHash?
  {
    && i in log && c in log && p in log && b in log
    && DescribedBy(e.job, i) && FromAnswer(e.job, c) && PushedFor(e.job, p) && BoundTo(e.job, b)
    && i.credentialId == e.credentialId && i.leaf == Some(c.certificate) && p.accepted
    && e.digests == p.digests == b.digests && e.credentialId == p.credentialId == b.credentialId
    && e.hash == p.hash && Fits(e.hash, e.digests)
  }

  /**
   CSC: one digest sequence is CalculateDigest's answer for the certificate the provider described
   the credential with, the one of an accepted push, the one the authorization was found bound to,
   and the one signed with that credential; the hash algorithm fits the length of every digest in it.
   */
  lemma {:induction false} CscSignsWhatWasConfirmed(run: seq<Move>, e: Event)
    requires e in After(run).log && e.SignHash?
    ensures exists i, c, p, b :: Confirmed(After(run).log, e, i, c, p, b)
  {
    EvidenceIsSound(run, e);
    CscConfirmed(After(run).log, e);
  }

  lemma CscConfirmed(log: seq<Event>, e: Event)
    requires e.SignHash? && Faithful(e) && Sound(e.job, log)
    ensures exists i, c, p, b :: Confirmed(log, e, i, c, p, b)
  {
    var i :| i in log && DescribedBy(e.job, i);
    var c :| c in log && FromAnswer(e.job, c);
    var p :| p in log && PushedFor(e.job, p);
    var b :| b in log && BoundTo(e.job, b);
    assert Confirmed(log, e, i, c, p, b);
  }

  /**
   The identity signed with and the two certificates are the request's, or those of one answered
   identity if the request did not give all three.
   */
  ghost predicate SignsAs(e: Event, input: PrepareInput, log: seq<Event>)
    requires e.ServerRaw? || e.DevicePush?
  {
    if input.signIdentityId != "" && input.signingCert != "" && input.authCert != "" then
      && e.identity == input.signIdentityId && e.job.signingCert == input.signingCert
      && e.job.authCert == input.authCert
    else exists i ::
      && i in log && i.IdentityInfo? && Subject(i) == e.job.jobId
      && i.identities.signing == Some(e.identity) && i.identities.signingCert == Some(e.job.signingCert)
      && i.identities.authSelected && i.identities.authCert == Some(e.job.authCert)
  }

  lemma {:induction false} SigningIsCertified(run: seq<Move>, e: Event)
    requires (e.ServerRaw? || e.DevicePush?) && Faithful(e) && Certified(run, After(run).log, e.job)
    ensures exists k :: PreparedAt(run, k, e.job.jobId) && SignsAs(e, run[k].step.input, After(run).log)
  {
    var k :| PreparedAt(run, k, e.job.jobId) && TakenFrom(e.job, run[k].step.input, After(run).log);
    if !GivesAll(run[k].step.input) {
      var i :| i in After(run).log && IdentifiedBy(e.job, i);
    }
  }

  /**
   TrustedX: the digests sent to the signer and the summary in the consent the person gave, the
   one the job's OAuth state stands for, are from the same CalculateDigest answer; and the identity
   signed with, the certificate that answer was computed for and the one for the timestamp are the
   three Prepare was given, or if it was not given all three those of one answered identity.
   */
  lemma {:induction false} TrustedXSignsWhatWasConsented(run: seq<Move>, e: Event)
    requires e in After(run).log && (e.ServerRaw? || e.DevicePush?)
    ensures exists c, d ::
      && c in After(run).log && d in After(run).log
      && FromAnswer(e.job, c) && Consented(e.job, d)
      && d.summary == c.answer.summary && d.identity == e.identity
      && SentTexts(e) == DigestTexts(e.job.documents) && c.certificate == e.job.signingCert
    ensures exists k :: PreparedAt(run, k, e.job.jobId) && SignsAs(e, run[k].step.input, After(run).log)
  {
    EvidenceIsSound(run, e);
    EvidenceIsCertified(run, e);
    SigningIsCertified(run, e);
    var c :| c in After(run).log && FromAnswer(e.job, c);
    var d :| d in After(run).log && Consented(e.job, d);
  }

  lemma {:induction false} EvidenceIsCertified(run: seq<Move>, e: Event)
    requires e in After(run).log && Evidence(e)
    ensures Certified(run, After(run).log, e.job)
  {
    AlwaysCertified(run);
    assert Recorded(After(run), e.job) && Known(After(run), e.job);
  }

  /**
   Finalize: entry k carries document k's session and the DER of document k's value; for a remote
   flow that value is the k-th one a signing call returned for the job's digests, and in a possible
   run that call is the only one ever made for the job.
   */
  lemma {:induction false} FinalizeIsPaired(run: seq<Move>, e: Event, k: nat)
    requires e in After(run).log && e.Finalize? && k < |e.job.documents|
    ensures
      var ds := e.job.documents;
      && |e.entries| == |ds|
      && e.entries[k].sessionId == ds[k].sessionId
      && Ecdsa.NormalizeText(ds[k].signatureValue).Some?
      && e.entries[k].signatureValue == Ecdsa.NormalizeText(ds[k].signatureValue).value.0
    ensures !e.job.flow.IsClientSide() ==> exists g ::
      && g in After(run).log && SignedBy(e.job, g) && Returned(g, k, e.job.documents[k].signatureValue)
      && (Possible(run) ==> OnlyOne(After(run).log, g))
  {
    EvidenceIsSound(run, e);
    EntriesAt(e.job.documents, k);
    if !e.job.flow.IsClientSide() {
      var g := SignedBefore(After(run).log, e);
      if Possible(run) { SigningIsUnique(run, g); }
      assert Returned(g, k, e.job.documents[k].signatureValue);
    }
  }

  lemma SignedBefore(log: seq<Event>, e: Event) returns (g: Event)
    requires e.Finalize? && Faithful(e) && Sound(e.job, log) && !e.job.flow.IsClientSide()
    ensures g in log && SignedBy(e.job, g)
  {
    g :| g in log && SignedBy(e.job, g);
  }

  /** No other call of its kind was made for its job. */
  ghost predicate OnlyOne(log: seq<Event>, g: Event) {
    forall h :: h in log && KindOf(h) == KindOf(g) && Subject(h) == Subject(g) ==> h == g
  }

  lemma {:induction false} SigningIsUnique(run: seq<Move>, g: Event)
    requires Possible(run) && g in After(run).log && (KindOf(g) == SignKind || KindOf(g) == FinalizeKind)
    ensures OnlyOne(After(run).log, g)
  {
    var log := After(run).log;
    AtMostOnce.SignedAndFinalizedAtMostOnce(run, Subject(g));
    forall h | h in log && KindOf(h) == KindOf(g) && Subject(h) == Subject(g)
      ensures h == g { CalledOnceIsUnique(log, h, g); }
  }

  lemma {:induction false} NormalizedValue(raw: seq<Byte>, text: string)
    requires Ecdsa.NormalizeText(Base64.Encode(raw)).Some? && text == Ecdsa.NormalizeText(Base64.Encode(raw)).value.0
    ensures !Ecdsa.Normalize(raw).Refused? && text == Base64.Encode(Ecdsa.Normalize(raw).der)
  {
    Ecdsa.NormalizeEncoded(raw);
  }

  /**
   The check accepted, with the certificate and algorithms of the job finalized, over document k's
   digest, the value of entry k.
   */
  ghost predicate Vouches(c: Event, e: Event, k: nat)
    requires e.Finalize? && k < |e.job.documents|
  {
    && c.Checked? && Subject(c) == Subject(e) && c.ok
    && c.certificate == e.job.signingCert && c.algo == e.job.signAlgo && c.hash == e.job.hashAlgorithm
    && Base64.Decode(e.job.documents[k].digest) == Some(c.digest)
    && k < |e.entries| && !Ecdsa.Normalize(c.value).Refused?
    && e.entries[k].signatureValue == Base64.Encode(Ecdsa.Normalize(c.value).der)
  }

  /**
   CSC: every value finalized is one that a VerifySignature call accepted, made with the job's own
   certificate and algorithms over that document's own digest.
   */
  lemma {:induction false} CscFinalizesVerifiedValues(run: seq<Move>, e: Event, k: nat)
    requires e in After(run).log && e.Finalize? && e.job.flow.IsCsc() && k < |e.job.documents|
    ensures exists c :: c in After(run).log && Vouches(c, e, k)
  {
    EvidenceIsSound(run, e);
    CheckedValue(After(run).log, e, k);
  }

  lemma CheckedValue(log: seq<Event>, e: Event, k: nat)
    requires e.Finalize? && Faithful(e) && Sound(e.job, log) && e.job.flow.IsCsc() && k < |e.job.documents|
    ensures exists c :: c in log && Vouches(c, e, k)
  {
    EntriesAt(e.job.documents, k);
    var c := CheckBehind(log, e.job, k);
    CheckVouches(c, e, k);
  }

  lemma {:induction false} CheckBehind(log: seq<Event>, j: Job, k: nat) returns (c: Event)
    requires Sound(j, log) && WellFormed(j) && j.state.Finalizing? && j.flow.IsCsc() && k < |j.documents|
    ensures c in log && CheckedFor(j, c, k)
  {
    assert SignedIn(j, log) && ValueChecked(j, log, k);
    c :| c in log && CheckedFor(j, c, k);
  }

  lemma {:induction false} CheckVouches(c: Event, e: Event, k: nat)
    requires e.Finalize? && k < |e.job.documents| && CheckedFor(e.job, c, k) && k < |e.entries|
    requires Ecdsa.NormalizeText(e.job.documents[k].signatureValue).Some?
    requires e.entries[k].signatureValue == Ecdsa.NormalizeText(e.job.documents[k].signatureValue).value.0
    ensures Vouches(c, e, k)
  {
    NormalizedValue(c.value, e.entries[k].signatureValue);
  }

  /**
   CalculateDigest is only ever called before the person confirms anything, for a job that shows
   nothing of an answer or has failed.
   */
  lemma {:induction false} CalculatedBeforeConfirmation(run: seq<Move>, c: Event)
    requires c in After(run).log && c.Calculated?
    ensures Calculable(c.job) && (c.job.state.Failed? || Blank(c.job)) && c.certificate == c.job.signingCert
    ensures forall i :: 0 <= i < |c.job.documents| ==> (c.signAsPdf <==> c.job.documents[i].format.Pades?)
    ensures c.createNewEdoc <==>
      c.job.documents != [] && c.job.documents[0].format.Xades? && c.job.documents[0].operation.Create?
  {
    AlwaysFaithful(run, c);
  }
}
