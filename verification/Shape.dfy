/**
 What every copy of a job looks like, in every run: documents READY all together or not at all,
 no signature value kept on a READY one, and a state that fits the flow and the pending leg.
 */
module Shape {
  import opened Wrappers
  import opened Jobs
  import opened Upstream
  import opened AuthCert
  import opened Flows
  import opened Machine
  import opened Copies

  ghost predicate NoneReady(ds: seq<Document>) {
    forall i :: 0 <= i < |ds| ==> !ds[i].state.DocReady?
  }

  /** READY, with nothing left of the transient signature value. */
  ghost predicate AllReady(ds: seq<Document>) {
    forall i :: 0 <= i < |ds| ==> ds[i].state.DocReady? && ds[i].signatureValue == ""
  }

  ghost predicate OneFormat(ds: seq<Document>) {
    forall i :: 0 <= i < |ds| ==> ds[i].format == ds[0].format
  }

  /** What already holds while Prepare is still working on the job. */
  ghost predicate Drafted(j: Job) {
    && j.flow.Registered()
    && j.documents != []
    && (j.flow.EidScan? ==> |j.documents| == 1)
    && OneFormat(j.documents)
    && (NoneReady(j.documents) || AllReady(j.documents))
    && (j.flow.IsClientSide() ==> j.oauthState == "" && j.pendingLeg.NoLeg?)
    && (j.flow.IsTrustedX() ==> !j.pendingLeg.CredentialLeg?)
    && (j.flow.IsCsc() ==> !j.pendingLeg.ProfileLeg?)
  }

  ghost predicate WellFormed(j: Job) {
    && Drafted(j)
    && (if j.state.Ready? then AllReady(j.documents) else j.state.Failed? || NoneReady(j.documents))
    && !j.state.Preparing?
    && (j.flow.IsClientSide() ==> !j.state.AwaitingAuthorization? && !j.state.Signing?)
    && (!j.flow.IsClientSide() ==> !j.state.AwaitingClientSignature?)
    && (!j.flow.IsClientSide() && !j.state.Failed? ==> (j.state.AwaitingAuthorization? <==> !j.pendingLeg.NoLeg?))
  }

  /** The same job to all but the fields no document's fate depends on. */
  ghost predicate Alike(a: Job, b: Job) {
    && a.jobId == b.jobId && a.flow == b.flow && a.state == b.state
    && |a.documents| == |b.documents|
    && forall i :: 0 <= i < |a.documents| ==>
         && a.documents[i].documentId == b.documents[i].documentId
         && a.documents[i].format == b.documents[i].format
         && a.documents[i].state == b.documents[i].state
         && (a.documents[i].state.DocReady? ==> a.documents[i].signatureValue == b.documents[i].signatureValue)
  }

  lemma AlikeIsDrafted(a: Job, b: Job)
    requires Drafted(a) && Alike(a, b) && !a.flow.IsClientSide()
    requires b.pendingLeg == a.pendingLeg || !(b.pendingLeg.CredentialLeg? || b.pendingLeg.ProfileLeg?)
    ensures Drafted(b) && (NoneReady(a.documents) ==> NoneReady(b.documents))
  {
    assert forall i :: 0 <= i < |a.documents| ==> a.documents[i].format == b.documents[i].format;
    if NoneReady(a.documents) { assert NoneReady(b.documents); }
  }

  lemma FailedIsWellFormed(j: Job, code: string)
    requires Drafted(j)
    ensures WellFormed(FailedWith(j, code))
  {
  }

  lemma CalculatedIsAlike(j: Job, certificate: string, answer: Option<DigestAnswer>)
    ensures
      var j' := CalculateDigests(j, certificate, answer).job;
      Alike(j, j') && j'.pendingLeg == j.pendingLeg && j'.oauthState == j.oauthState && j'.authCert == j.authCert
  {
  }

  lemma BeginConsentIsAlike(j: Job, digests: Option<DigestAnswer>, state: Option<string>)
    ensures
      var o := BeginConsent(j, digests, state);
      && Alike(j, o.job)
      && (if o.ok then o.job.pendingLeg.SignLeg? && state == Some(o.job.oauthState)
          else o.job.pendingLeg == j.pendingLeg && o.job.oauthState == j.oauthState)
  {
    CalculatedIsAlike(j, j.signingCert, digests);
  }

  lemma CreatedIsDrafted(id: string, input: PrepareInput, answers: seq<SessionAnswer>)
    requires input.flow.Registered() && ValidBatch(input)
    ensures
      var j := CreateSessions(NewJob(id, input), answers).job;
      && Drafted(j) && NoneReady(j.documents) && j.jobId == id && j.flow == input.flow && j.state == State.Preparing
      && j.pendingLeg.NoLeg? && j.oauthState == ""
  {
  }

  lemma BegunIsWellFormed(j: Job, input: PrepareInput, ans: Answers)
    requires Drafted(j) && NoneReady(j.documents) && j.flow == input.flow && j.state == State.Preparing
      && j.pendingLeg.NoLeg?
    ensures WellFormed(Begin(j, input, ans).job) && Begin(j, input, ans).job.jobId == j.jobId
  {
    if input.flow.IsClientSide() {
      var j1 := j.(signingCert := input.signingCert, authCert := input.authCert);
      var c := CalculateDigests(j1, input.signingCert, ans.digests).job;
      CalculatedIsAlike(j1, input.signingCert, ans.digests);
      assert OneFormat(c.documents) && NoneReady(c.documents);
      FailedIsWellFormed(c, "signapi:calculate_digest_failed");
    } else if input.flow.IsCsc() {
      var b := BeginCsc(j.(authCert := input.authCert), ans).job;
      assert b.documents == j.documents;
      FailedIsWellFormed(b, "signing:begin_authorization_failed");
    } else {
      var j1 :=
        j.(signIdentityId := input.signIdentityId, signingCert := input.signingCert, authCert := input.authCert);
      BegunTrustedX(j, ans);
      BegunTrustedX(j1, ans);
    }
  }

  lemma BegunTrustedX(j: Job, ans: Answers)
    requires Drafted(j) && NoneReady(j.documents) && j.flow.IsTrustedX() && j.state == State.Preparing
      && j.pendingLeg.NoLeg?
    ensures
      var b := BeginTrustedX(j, ans);
      && b.job.jobId == j.jobId
      && WellFormed(if b.ok then Transitioned(b.job, AwaitingAuthorization)
                    else FailedWith(b.job, "signing:begin_authorization_failed"))
  {
    var b := BeginTrustedX(j, ans).job;
    BeginConsentIsAlike(j, ans.digests, ans.state);
    if j.signIdentityId != "" && j.signingCert != "" && j.authCert != "" {
      AlikeIsDrafted(j, b);
    } else {
      assert b.documents == j.documents;
    }
    FailedIsWellFormed(b, "signing:begin_authorization_failed");
  }

  lemma PreparedIsWellFormed(id: string, input: PrepareInput, ans: Answers)
    requires input.flow.Registered() && ValidBatch(input)
    ensures WellFormed(Prepared(id, input, ans).job) && Prepared(id, input, ans).job.jobId == id
  {
    var c := CreateSessions(NewJob(id, input), ans.sessions).job;
    CreatedIsDrafted(id, input, ans.sessions);
    FailedIsWellFormed(c, "signapi:upload_failed");
    BegunIsWellFormed(c, input, ans);
  }

  /** What an advanced callback leg keeps of the job, and where it leaves it. */
  ghost predicate Advanced(j: Job, a: Advance) {
    && Alike(j, a.job)
    && match a.verdict
       case Done => j.pendingLeg.SignLeg? && a.job.pendingLeg.NoLeg? && a.job.oauthState == j.oauthState
       case Redirect => (j.pendingLeg.ProfileLeg? || j.pendingLeg.CredentialLeg?) && a.job.pendingLeg.SignLeg?
       case Refusal => a.job.pendingLeg == j.pendingLeg || a.job.pendingLeg.SignLeg?
  }

  lemma ProfileAdvances(j: Job, ans: Answers)
    requires j.pendingLeg.ProfileLeg?
    ensures Advanced(j, AdvanceProfile(j, ans))
  {
    if ans.token.Some? && ans.identities.Some? && ans.identities.value.signing.Some? {
      var ids := ans.identities.value;
      var j3 := j.(profileToken := ans.token.value.access, signIdentityId := ids.signing.value,
                   signingCert := if ids.signingCert.None? then "" else ids.signingCert.value,
                   authCert := if ids.authCert.None? then "" else ids.authCert.value);
      BeginConsentIsAlike(j3, ans.digests, ans.state);
    }
  }

  lemma CredentialAdvances(j: Job, token: Token, ans: Answers)
    requires j.pendingLeg.CredentialLeg?
    ensures Advanced(j, AdvanceCredential(j, token, ans))
  {
    if ans.credential.Some? && ans.credential.value.leaf.Some? {
      var cred := ans.credential.value;
      var j1 := j.(credentialId := cred.credentialId, signingCert := cred.leaf.value);
      CalculatedIsAlike(j1, j1.signingCert, ans.digests);
    }
  }

  lemma CallbackAdvances(j: Job, ans: Answers)
    ensures Advanced(j, AdvanceCallback(j, ans))
  {
    if j.pendingLeg.ProfileLeg? { ProfileAdvances(j, ans); }
    if j.pendingLeg.CredentialLeg? && ans.token.Some? {
      var j0 := j.(pkceVerifier := "");
      CredentialAdvances(j0, ans.token.value, ans);
    }
  }

  lemma CalledBackIsWellFormed(j: Job, declined: bool, ans: Answers)
    requires WellFormed(j)
    ensures WellFormed(CalledBack(j, declined, ans).job)
    ensures CalledBack(j, declined, ans).job.jobId == j.jobId && CalledBack(j, declined, ans).job.flow == j.flow
  {
    if declined {
      FailedIsWellFormed(j, "signing:declined");
    } else if j.flow.IsClientSide() {
      FailedIsWellFormed(j, "signing:callback_failed");
    } else {
      var a := AdvanceCallback(j, ans);
      CallbackAdvances(j, ans);
      AlikeIsDrafted(j, a.job);
      FailedIsWellFormed(a.job, "signing:callback_failed");
      if j.state.Ready? { assert AllReady(j.documents) && a.verdict.Refusal?; }
    }
  }

  lemma {:induction false} AttachedKeeps(ds: seq<Document>, sigs: seq<Submitted>)
    requires Attached(ds, sigs).Some?
    ensures
      var ds' := Attached(ds, sigs).value;
      |ds'| == |ds| && forall i :: 0 <= i < |ds| ==> ds'[i] == ds[i].(signatureValue := ds'[i].signatureValue)
  {
    if sigs != [] { AttachedKeeps(ds, sigs[..|sigs| - 1]); }
  }

  lemma SubmittedIsWellFormed(cfg: Config, j: Job, sigs: seq<Submitted>)
    requires WellFormed(j) && Submit(cfg, j, sigs).Some?
    ensures
      var j' := Submit(cfg, j, sigs).value;
      WellFormed(j') && j'.jobId == j.jobId && j'.flow == j.flow && j'.state.Finalizing?
  {
    AttachedKeeps(j.documents, sigs);
  }

  /** Signing touches the signature values, the token and the code, and nothing else. */
  lemma SigningIsAlike(j: Job, ans: SignAnswers)
    requires NoneReady(j.documents)
    ensures Alike(j, Sign(j, ans).job) && Sign(j, ans).job.pendingLeg == j.pendingLeg
      && Sign(j, ans).job.oauthState == j.oauthState
    ensures Alike(j, PushDevice(j, ans).job) && PushDevice(j, ans).job.pendingLeg == j.pendingLeg
    ensures PushDevice(j, ans).job.oauthState == j.oauthState
    ensures Sign(j, ans).job.authCert == PushDevice(j, ans).job.authCert == j.authCert
  {
    SignedIsAlike(j, Sign(j, ans).job);
    SignedIsAlike(j, PushDevice(j, ans).job);
  }

  /** The job but for its signature values, its token and its code. */
  ghost predicate SignedFrom(j: Job, j': Job) {
    && j' == j.(signingToken := j'.signingToken, verificationCode := j'.verificationCode, documents := j'.documents)
    && |j'.documents| == |j.documents|
    && forall i :: 0 <= i < |j.documents| ==>
         j'.documents[i] == j.documents[i].(signatureValue := j'.documents[i].signatureValue)
  }

  lemma SignedIsAlike(j: Job, j': Job)
    requires NoneReady(j.documents) && SignedFrom(j, j')
    ensures Alike(j, j') && j'.pendingLeg == j.pendingLeg && j'.oauthState == j.oauthState && j'.authCert == j.authCert
  {
  }

  /** A worker's next place: the same job, in the state that place calls for. */
  ghost predicate Follows(j: Job, work: Work) {
    && InPhase(work)
    && (work.Copy() ==>
          && WellFormed(work.job) && work.job.jobId == j.jobId && work.job.flow == j.flow
          && work.job.oauthState == j.oauthState && work.job.pendingLeg == j.pendingLeg
            && work.job.authCert == j.authCert)
  }

  lemma SignedFollows(j: Job, o: Outcome)
    requires WellFormed(j) && j.state.Signing?
    requires Alike(j, o.job) && o.job.pendingLeg == j.pendingLeg && o.job.oauthState == j.oauthState
      && o.job.authCert == j.authCert
    ensures Follows(j, Signed(j, o)) && Follows(j, AfterSign(o))
  {
    AlikeIsDrafted(j, o.job);
    FailedIsWellFormed(o.job, "signing:sign_failed");
  }

  lemma SigningFollows(j: Job, ans: SignAnswers)
    requires WellFormed(j) && j.state.Signing?
    ensures Follows(j, Signed(j, Sign(j, ans))) && Signed(j, Sign(j, ans)).Copy()
    ensures Follows(j, AfterSign(PushDevice(j, ans)))
  {
    SigningIsAlike(j, ans);
    SignedFollows(j, Sign(j, ans));
    SignedFollows(j, PushDevice(j, ans));
  }

  lemma FinalizedFollows(cfg: Config, j: Job, taken: bool)
    requires WellFormed(j) && j.state.Finalizing?
    ensures Follows(j, AfterFinalize(Finalized(cfg, j, taken)))
  {
    FailedIsWellFormed(j, "signapi:finalize_failed");
  }

  /** A worker's copy is in the state its place in RunJob calls for. */
  ghost predicate InPhase(work: Work) {
    match work
    case ToSign(j) => j.state.Signing?
    case ToPublish(j) => j.state.Signing? && j.flow.EidScan?
    case ToPush(j) => j.state.Signing? && j.flow.EidScan?
    case ToSave(j, more) => if more then j.state.Finalizing? else j.state.Terminal()
    case ToFinalize(j) => j.state.Finalizing?
    case _ => true
  }

  /** The effect works on copies the state has, and what it makes is well-formed. */
  ghost predicate Legal(s: Sys, e: Effect) {
    match e
    case Creates(j, _, _) => WellFormed(j)
    case Settles(before, after, _, _, save, enqueued) =>
      && before.jobId in s.jobs && s.jobs[before.jobId] == before
      && WellFormed(after) && after.jobId == before.jobId && after.flow == before.flow
      && (enqueued ==> save.Saved?)
    case Takes(w, _) => s.WorkOf(w).Idle?
    case Works(w, events, work) =>
      && w in s.workers
      && !work.Got? && InPhase(work)
      && (work.Copy() ==> WellFormed(work.job))
      && (match s.workers[w]
          case Idle => work.Idle? && events == []
          case Got(id) =>
            events == []
              && (work.Copy() ==> id in s.jobs && work.job == s.jobs[id] && (work.ToSign? || work.ToFinalize?))
          case _ => if work.Copy() then Follows(s.workers[w].job, work) else work.Idle? && events == [])
    case Writes(w, save, work) =>
      w in s.workers && s.workers[w].Copy() && !work.Got? && (work.Idle? || Follows(s.workers[w].job, work))
    case _ => true
  }

  ghost predicate Shaped(s: Sys) {
    && (forall j :: Known(s, j) ==> WellFormed(j))
    && (forall id :: id in s.jobs ==> s.jobs[id].jobId == id)
    && (forall w :: w in s.workers ==> InPhase(s.workers[w]))
  }

  lemma StoredIsWellFormed(s: Sys, id: string)
    requires Shaped(s) && id in s.jobs
    ensures WellFormed(s.jobs[id]) && s.jobs[id].jobId == id && Known(s, s.jobs[id])
  {
    assert Stored(s, s.jobs[id]) && Known(s, s.jobs[id]);
  }

  lemma HeldIsWellFormed(s: Sys, w: nat)
    requires Shaped(s) && s.WorkOf(w).Copy()
    ensures WellFormed(s.WorkOf(w).job) && InPhase(s.WorkOf(w)) && Known(s, s.WorkOf(w).job)
  {
    assert Held(s, s.workers[w].job) && Known(s, s.workers[w].job);
  }

  lemma HandlerIsLegal(cfg: Config, s: Sys, step: Step)
    requires Shaped(s) && (step.Prepare? || step.Callback? || step.SubmitSignatures?)
    ensures Legal(s, EffectOf(cfg, s, step))
  {
    match step
    case Prepare(id, input, ans, save) => if Admitted(cfg, input) { PreparedIsWellFormed(id, input, ans); }
    case Callback(state, declined, ans, _, _, _) =>
      if state in s.index && s.index[state] in s.jobs {
        StoredIsWellFormed(s, s.index[state]);
        CalledBackIsWellFormed(s.jobs[s.index[state]], declined, ans);
      }
    case SubmitSignatures(id, sigs, _, _) =>
      if id in s.jobs && Submit(cfg, s.jobs[id], sigs).Some? {
        StoredIsWellFormed(s, id);
        SubmittedIsWellFormed(cfg, s.jobs[id], sigs);
      }
    case _ =>
  }

  lemma LoadIsLegal(cfg: Config, s: Sys, step: Step)
    requires Shaped(s) && step.WorkerLoad?
    ensures Legal(s, EffectOf(cfg, s, step))
  {
    if s.WorkOf(step.w).Got? && s.WorkOf(step.w).id in s.jobs { StoredIsWellFormed(s, s.WorkOf(step.w).id); }
  }

  lemma FollowingIsLegal(s: Sys, w: nat, events: seq<Event>, work: Work)
    requires Shaped(s) && s.WorkOf(w).Copy() && work.Copy() && Follows(s.WorkOf(w).job, work)
    ensures Legal(s, Works(w, events, work))
  {
  }

  lemma SignIsLegal(cfg: Config, s: Sys, step: Step)
    requires Shaped(s) && (step.WorkerSign? || step.WorkerPush?)
    ensures Legal(s, EffectOf(cfg, s, step))
  {
    var (w, ans) := (step.w, step.answers);
    if step.WorkerSign? && s.WorkOf(w).ToSign? {
      var j := s.WorkOf(w).job;
      HeldIsWellFormed(s, w);
      SigningFollows(j, ans);
      FollowingIsLegal(s, w, Sign(j, ans).events, Signed(j, Sign(j, ans)));
    } else if step.WorkerPush? && s.WorkOf(w).ToPush? {
      var j := s.WorkOf(w).job;
      HeldIsWellFormed(s, w);
      SigningFollows(j, ans);
      FollowingIsLegal(s, w, PushDevice(j, ans).events, AfterSign(PushDevice(j, ans)));
    }
  }

  lemma FinalizeIsLegal(cfg: Config, s: Sys, step: Step)
    requires Shaped(s) && step.WorkerFinalize?
    ensures Legal(s, EffectOf(cfg, s, step))
  {
    if s.WorkOf(step.w).ToFinalize? {
      var j := s.WorkOf(step.w).job;
      var o := Finalized(cfg, j, step.taken);
      HeldIsWellFormed(s, step.w);
      FinalizedFollows(cfg, j, step.taken);
      FollowingIsLegal(s, step.w, o.events, AfterFinalize(o));
    }
  }

  lemma WriteIsLegal(cfg: Config, s: Sys, step: Step)
    requires Shaped(s) && (step.WorkerPublish? || step.WorkerSave?)
    ensures Legal(s, EffectOf(cfg, s, step))
  {
    if s.WorkOf(step.w).Copy() {
      HeldIsWellFormed(s, step.w);
      FailedIsWellFormed(s.WorkOf(step.w).job, "signing:sign_failed");
    }
  }

  lemma EffectIsLegal(cfg: Config, s: Sys, step: Step)
    requires Shaped(s)
    ensures Legal(s, EffectOf(cfg, s, step))
  {
    match step
    case Prepare(_, _, _, _) => HandlerIsLegal(cfg, s, step);
    case Callback(_, _, _, _, _, _) => HandlerIsLegal(cfg, s, step);
    case SubmitSignatures(_, _, _, _) => HandlerIsLegal(cfg, s, step);
    case DeleteJob(_, _, _) =>
    case ArchiveJobDocument(_, _) =>
    case WorkerDequeue(_, _) =>
    case WorkerLoad(_, _) => LoadIsLegal(cfg, s, step);
    case WorkerSign(_, _) => SignIsLegal(cfg, s, step);
    case WorkerPublish(_, _) => WriteIsLegal(cfg, s, step);
    case WorkerPush(_, _) => SignIsLegal(cfg, s, step);
    case WorkerSave(_, _) => WriteIsLegal(cfg, s, step);
    case WorkerFinalize(_, _) => FinalizeIsLegal(cfg, s, step);
    case WorkerCrash(_) =>
  }

  lemma MadeIsWellFormed(s: Sys, e: Effect, j: Job)
    requires Shaped(s) && Honest(s, e) && Legal(s, e) && Known(Effected(s, e), j)
    ensures WellFormed(j)
  {
    OnlyKnownCopies(s, e, j);
  }

  lemma ShapedEffect(s: Sys, e: Effect)
    requires Shaped(s) && Honest(s, e) && Legal(s, e)
    ensures Shaped(Effected(s, e))
  {
    var s' := Effected(s, e);
    forall j | Known(s', j) ensures WellFormed(j) { MadeIsWellFormed(s, e, j); }
    forall id | id in s'.jobs ensures s'.jobs[id].jobId == id { StoredFrom(s, e, id); }
    forall w | w in s'.workers ensures InPhase(s'.workers[w]) { HeldFrom(s, e, w); }
  }

  lemma ShapedStep(cfg: Config, s: Sys, step: Step)
    requires Shaped(s)
    ensures Shaped(Next(cfg, s, step))
  {
    EffectIsHonest(cfg, s, step);
    EffectIsLegal(cfg, s, step);
    ShapedEffect(s, EffectOf(cfg, s, step));
  }

  lemma {:induction false} AlwaysShaped(run: seq<Move>)
    ensures Shaped(After(run))
  {
    if run != [] {
      AlwaysShaped(run[..|run| - 1]);
      ShapedStep(run[|run| - 1].cfg, After(run[..|run| - 1]), run[|run| - 1].step);
    }
  }
}
