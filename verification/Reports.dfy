/**
 Nothing in the log is made up: every answer a logged call shows is one that the step which made
 the call was given, for the job the log names.
 */
module Reports {
  import opened Wrappers
  import opened Bytes
  import opened Jobs
  import opened Upstream
  import opened AuthCert
  import opened Flows
  import opened Machine
  import opened Copies
  import opened Shape
  import Lifecycle

  /** The callback's state leads to the job. */
  ghost predicate Resolves(s: Sys, state: string, id: string) {
    state in s.index && s.index[state] in s.jobs && s.jobs[s.index[state]].jobId == id
  }

  /** The step is a handler's, for the job with this id, and goes on to the provider. */
  ghost predicate HandlerFor(s: Sys, step: Step, id: string) {
    || (step.Prepare? && step.id == id)
    || (step.Callback? && !step.declined && Resolves(s, step.state, id))
  }

  ghost predicate CallbackFor(s: Sys, step: Step, id: string) {
    step.Callback? && !step.declined && Resolves(s, step.state, id) && step.ans.token.Some?
  }

  /** VerifySignature's verdict on the value was the k-th, and the value the k-th returned. */
  ghost predicate Judged(ans: SignAnswers, k: int, value: seq<Byte>, ok: bool) {
    && ans.hashes.Some? && 0 <= k < |ans.hashes.value| && ans.hashes.value[k] == Some(value)
    && ok == (k < |ans.verified| && ans.verified[k])
  }

  /** What the call shows of an answer is what the step was given. */
  ghost predicate AnsweredBy(s: Sys, step: Step, c: Event) {
    match c
    case IdentityInfo(j, ids) => CallbackFor(s, step, j.jobId) && step.ans.identities == Some(ids)
    case CredentialInfo(j, asked, credentialId, leaf) =>
      && CallbackFor(s, step, j.jobId) && step.ans.token.value.credentialId == asked != ""
      && step.ans.credential.Some? && step.ans.credential.value.credentialId == credentialId
      && step.ans.credential.value.leaf == leaf
    case Calculated(j, _, _, _, _, answer) => HandlerFor(s, step, j.jobId) && step.ans.digests == Some(answer)
    case Consent(j, state, _, _, _) => HandlerFor(s, step, j.jobId) && step.ans.state == Some(state)
    case Pushed(j, state, _, _, _, accepted) =>
      CallbackFor(s, step, j.jobId) && step.ans.state == Some(state) && step.ans.pushed == accepted
    case Bound(j, credentialId, digests) =>
      && CallbackFor(s, step, j.jobId) && step.ans.authorized == Some(Authorized(credentialId, digests))
      && j.signingToken == step.ans.token.value.access
    case SignHash(j, _, _, _, _, returned) =>
      step.WorkerSign? && s.WorkOf(step.w) == ToSign(j) && step.answers.hashes == returned
    case Checked(j, _, _, _, _, value, ok) =>
      step.WorkerSign? && s.WorkOf(step.w) == ToSign(j) && exists k :: Judged(step.answers, k, value, ok)
    case ServerRaw(j, _, _, _, signatures) =>
      && step.WorkerSign? && s.WorkOf(step.w) == ToSign(j)
      && (signatures == [] || step.answers.raw == Some(signatures))
    case DevicePush(j, _, _, _, signature) =>
      && step.WorkerPush? && s.WorkOf(step.w) == ToPush(j)
      && (signature == if step.answers.device.Some? then step.answers.device.value else None)
    case Finalize(j, _, _, taken) => step.WorkerFinalize? && s.WorkOf(step.w) == ToFinalize(j) && step.taken == taken
    case Enqueue(_) => (step.Callback? || step.SubmitSignatures?) && step.save.Saved? && step.pushed
    case Dequeue(id) => step.WorkerDequeue? && s.queue != [] && s.queue[0] == id
    case _ => true
  }

  // ---- Handlers ----

  /** The same, of the answers alone. */
  ghost predicate Shown(ans: Answers, id: string, c: Event) {
    && Preparatory(c) && Subject(c) == id
    && match c
       case IdentityInfo(_, ids) => ans.token.Some? && ans.identities == Some(ids)
       case CredentialInfo(_, asked, credentialId, leaf) =>
         && ans.token.Some? && ans.token.value.credentialId == asked != ""
         && ans.credential.Some? && ans.credential.value.credentialId == credentialId
         && ans.credential.value.leaf == leaf
       case Calculated(_, _, _, _, _, answer) => ans.digests == Some(answer)
       case Consent(_, state, _, _, _) => ans.state == Some(state)
       case Pushed(_, state, _, _, _, accepted) =>
         ans.token.Some? && ans.state == Some(state) && ans.pushed == accepted
       case Bound(j, credentialId, digests) =>
         && ans.token.Some? && ans.authorized == Some(Authorized(credentialId, digests))
         && j.signingToken == ans.token.value.access
       case _ => true
  }

  lemma ConsentIsShown(j: Job, ans: Answers)
    ensures forall c :: c in BeginConsent(j, ans.digests, ans.state).events ==>
      (c.Calculated? || c.Consent?) && Shown(ans, j.jobId, c)
  {
    CalculatedPrepares(j, j.signingCert, ans.digests);
  }

  lemma PreparedIsShown(id: string, input: PrepareInput, ans: Answers)
    ensures forall c :: c in Prepared(id, input, ans).events ==> (c.Calculated? || c.Consent?) && Shown(ans, id, c)
  {
    var j := CreateSessions(NewJob(id, input), ans.sessions).job;
    if input.flow.IsClientSide() {
      CalculatedPrepares(j.(signingCert := input.signingCert, authCert := input.authCert), input.signingCert,
                         ans.digests);
    } else if !input.flow.IsCsc() {
      ConsentIsShown(j, ans);
      ConsentIsShown(j.(signIdentityId := input.signIdentityId, signingCert := input.signingCert,
                        authCert := input.authCert), ans);
    }
  }

  lemma ProfileIsShown(j: Job, ans: Answers)
    ensures forall c :: c in AdvanceProfile(j, ans).events ==> Shown(ans, j.jobId, c)
  {
    if ans.token.Some? && ans.identities.Some? {
      var (j1, ids) := (j.(profileToken := ans.token.value.access), ans.identities.value);
      if ids.signing.Some? && ids.signingCert.Some? && ids.authCert.Some? {
        ConsentIsShown(j1.(signIdentityId := ids.signing.value, signingCert := ids.signingCert.value,
                           authCert := ids.authCert.value), ans);
      }
    }
  }

  lemma CredentialIsShown(j: Job, ans: Answers)
    requires ans.token.Some?
    ensures forall c :: c in AdvanceCredential(j, ans.token.value, ans).events ==> Shown(ans, j.jobId, c)
  {
    if ans.credential.Some? && ans.credential.value.leaf.Some? {
      var j1 := j.(credentialId := ans.credential.value.credentialId, signingCert := ans.credential.value.leaf.value);
      var c := CalculateDigests(j1, j1.signingCert, ans.digests);
      CalculatedPrepares(j1, j1.signingCert, ans.digests);
      if Digests(c.job.documents).Some? {
        RequestIsShown(c.job, Digests(c.job.documents).value, ans.credential.value, ans);
      }
    }
  }

  lemma RequestIsShown(j: Job, digests: seq<seq<Byte>>, cred: Credential, ans: Answers)
    requires ans.token.Some?
    ensures forall c :: c in RequestSignature(j, digests, cred, ans).events ==> Shown(ans, j.jobId, c)
  {
  }

  lemma CalledBackIsShown(j: Job, declined: bool, ans: Answers)
    ensures forall c :: c in CalledBack(j, declined, ans).events ==> !declined && Shown(ans, j.jobId, c)
  {
    if j.flow.IsTrustedX() && j.pendingLeg.ProfileLeg? {
      ProfileIsShown(j, ans);
    } else if j.flow.IsCsc() && j.pendingLeg.CredentialLeg? && ans.token.Some? {
      CredentialIsShown(j.(pkceVerifier := ""), ans);
    }
  }

  lemma PrepareReports(cfg: Config, s: Sys, step: Step)
    requires step.Prepare?
    ensures forall c :: c in Made(s, EffectOf(cfg, s, step)) ==> AnsweredBy(s, step, c)
  {
    PreparedIsShown(step.id, step.input, step.ans);
  }

  lemma CallbackReports(cfg: Config, s: Sys, step: Step)
    requires step.Callback?
    ensures forall c :: c in Made(s, EffectOf(cfg, s, step)) ==> AnsweredBy(s, step, c)
  {
    var e := EffectOf(cfg, s, step);
    if e.Settles? {
      CalledBackIsShown(e.before, step.declined, step.ans);
      forall c | c in Made(s, e) ensures AnsweredBy(s, step, c) {
        if c in e.events { ShownIsAnswered(s, step, e.before, c); }
      }
    }
  }

  lemma ShownIsAnswered(s: Sys, step: Step, j: Job, c: Event)
    requires step.Callback? && !step.declined && Resolves(s, step.state, j.jobId) && Shown(step.ans, j.jobId, c)
    ensures AnsweredBy(s, step, c)
  {
  }

  // ---- Workers ----

  lemma {:induction false} ChecksAreJudged(j: Job, digests: seq<seq<Byte>>, returned: seq<Option<seq<Byte>>>,
                                           verified: seq<bool>, c: Event)
    requires c in Checks(j, digests, returned, verified)
    ensures c.Checked? && c.job == j
    ensures exists k :: 0 <= k < |returned| && returned[k] == Some(c.value)
                        && c.ok == (k < |verified| && verified[k])
  {
    var ok := verified != [] && verified[0];
    var first := Checked(j, j.signingCert, j.signAlgo, j.hashAlgorithm, digests[0], returned[0].value, ok);
    if c == first {
      assert returned[0] == Some(c.value);
    } else {
      ChecksAreJudged(j, digests[1..], returned[1..], verified[1..], c);
      var k :| 0 <= k < |returned[1..]| && returned[1..][k] == Some(c.value)
        && c.ok == (k < |verified[1..]| && verified[1..][k]);
      assert returned[k + 1] == Some(c.value);
    }
  }

  lemma CscReports(j: Job, ans: SignAnswers, c: Event)
    requires c in SignCsc(j, ans).events
    ensures (c.SignHash? || c.Checked?) && c.job == j
    ensures c.SignHash? ==> ans.hashes == c.returned
    ensures c.Checked? ==> exists k :: Judged(ans, k, c.value, c.ok)
  {
    var digests := Digests(j.documents);
    var returned := if ans.hashes.None? then [] else ans.hashes.value;
    if c in Checks(j, digests.value, returned, ans.verified) {
      ChecksAreJudged(j, digests.value, returned, ans.verified, c);
      var k :| 0 <= k < |returned| && returned[k] == Some(c.value)
        && c.ok == (k < |ans.verified| && ans.verified[k]);
      assert Judged(ans, k, c.value, c.ok);
    }
  }

  lemma SignReports(cfg: Config, s: Sys, step: Step)
    requires step.WorkerSign? || step.WorkerPush?
    ensures forall c :: c in Made(s, EffectOf(cfg, s, step)) ==> AnsweredBy(s, step, c)
  {
    if step.WorkerSign? {
      SignMakes(cfg, s, step);
      if s.WorkOf(step.w).ToSign? && s.WorkOf(step.w).job.flow.IsCsc() {
        forall c | c in Made(s, EffectOf(cfg, s, step)) ensures AnsweredBy(s, step, c) {
          CscReports(s.WorkOf(step.w).job, step.answers, c);
        }
      }
    } else {
      PushMakes(cfg, s, step);
    }
  }

  lemma FinalizeReports(cfg: Config, s: Sys, step: Step)
    requires step.WorkerFinalize?
    ensures forall c :: c in Made(s, EffectOf(cfg, s, step)) ==> AnsweredBy(s, step, c)
  {
    FinalizeMakes(cfg, s, step);
    if s.WorkOf(step.w).ToFinalize? {
      FinalizeShows(cfg, s.WorkOf(step.w).job, step.taken);
      forall c | c in Made(s, EffectOf(cfg, s, step)) ensures AnsweredBy(s, step, c) { FinalizeReport(s, step, c); }
    }
  }

  lemma FinalizeReport(s: Sys, step: Step, c: Event)
    requires step.WorkerFinalize? && s.WorkOf(step.w).ToFinalize?
    requires c.Requested? || c.Refused? || (c.Finalize? && c.job == s.WorkOf(step.w).job && c.taken == step.taken)
    ensures AnsweredBy(s, step, c)
  {
  }

  lemma FinalizeShows(cfg: Config, j: Job, taken: bool)
    ensures forall c :: c in Finalized(cfg, j, taken).events ==>
      c.Requested? || c.Refused? || (c.Finalize? && c.job == j && c.taken == taken)
  {
  }

  lemma SilentReports(cfg: Config, s: Sys, step: Step)
    requires Silent(step) || step.ArchiveJobDocument?
    ensures forall c :: c in Made(s, EffectOf(cfg, s, step)) ==> AnsweredBy(s, step, c)
  {
  }

  lemma StepReports(cfg: Config, s: Sys, step: Step)
    ensures forall c :: c in Made(s, EffectOf(cfg, s, step)) ==> AnsweredBy(s, step, c)
  {
    match step
    case Prepare(_, _, _, _) => PrepareReports(cfg, s, step);
    case Callback(_, _, _, _, _, _) => CallbackReports(cfg, s, step);
    case WorkerSign(_, _) => SignReports(cfg, s, step);
    case WorkerPush(_, _) => SignReports(cfg, s, step);
    case WorkerFinalize(_, _) => FinalizeReports(cfg, s, step);
    case _ => SilentReports(cfg, s, step);
  }

  /** In every run every logged call shows the answer some step of the run was given, for that very job. */
  lemma {:induction false} AlwaysReported(run: seq<Move>, c: Event) returns (k: nat)
    requires c in After(run).log
    ensures k < |run| && AnsweredBy(After(run[..k]), run[k].step, c)
  {
    var last := |run| - 1;
    var (s, m) := (After(run[..last]), run[last]);
    LogGrows(s, EffectOf(m.cfg, s, m.step));
    if c in s.log {
      k := AlwaysReported(run[..last], c);
      assert run[..last][..k] == run[..k];
    } else {
      StepReports(m.cfg, s, m.step);
      k := last;
    }
  }

  // ---- READY is what the provider took ----

  /** The provider took a finalize request for the job. */
  ghost predicate TookFinalize(log: seq<Event>, id: string) {
    exists e :: e in log && e.Finalize? && Subject(e) == id && e.taken
  }

  ghost predicate Earned(j: Job, log: seq<Event>) {
    AllReady(j.documents) ==> TookFinalize(log, j.jobId)
  }

  lemma EarnedGrows(j: Job, log: seq<Event>, more: seq<Event>)
    requires Earned(j, log)
    ensures Earned(j, log + more)
  {
    if TookFinalize(log, j.jobId) {
      var e :| e in log && e.Finalize? && Subject(e) == j.jobId && e.taken;
      assert e in log + more;
    }
  }

  lemma FinalizeEarns(cfg: Config, j: Job, taken: bool, log: seq<Event>)
    requires WellFormed(j) && j.state.Finalizing?
    ensures var o := Finalized(cfg, j, taken); Earned(AfterFinalize(o).job, log + o.events)
  {
    var o := Finalized(cfg, j, taken);
    if o.ok {
      var e := o.events[1];
      assert e in o.events && e in log + o.events && e.Finalize? && Subject(e) == j.jobId && e.taken;
    } else {
      Lifecycle.FailedNoneReady(j, "signapi:finalize_failed");
    }
  }

  lemma SigningEarns(j: Job, ans: SignAnswers, log: seq<Event>)
    requires WellFormed(j) && j.state.Signing?
    ensures Signed(j, Sign(j, ans)).Copy() && Earned(Signed(j, Sign(j, ans)).job, log)
    ensures Earned(AfterSign(PushDevice(j, ans)).job, log)
  {
    Lifecycle.SigningIsOrderly(j, ans);
  }

  lemma WorkerEarns(cfg: Config, s: Sys, step: Step, j: Job)
    requires Shaped(s) && (step.WorkerSign? || step.WorkerPush? || step.WorkerFinalize?)
    requires Makes(EffectOf(cfg, s, step), j)
    ensures Earned(j, s.log + Made(s, EffectOf(cfg, s, step)))
  {
    HeldIsWellFormed(s, step.w);
    var (held, log) := (s.WorkOf(step.w).job, s.log + Made(s, EffectOf(cfg, s, step)));
    if step.WorkerFinalize? {
      FinalizeEarns(cfg, held, step.taken, s.log);
      FinalizeEffect(cfg, s, step, Finalized(cfg, held, step.taken));
    } else {
      SigningEarns(held, step.answers, log);
    }
  }

  lemma WriterEarns(cfg: Config, s: Sys, step: Step, j: Job)
    requires Shaped(s) && (step.WorkerPublish? || step.WorkerSave?) && Makes(EffectOf(cfg, s, step), j)
    ensures !AllReady(j.documents)
  {
    var held := s.WorkOf(step.w).job;
    HeldIsWellFormed(s, step.w);
    assert !held.documents[0].state.DocReady?;
    Lifecycle.FailedNoneReady(held, "signing:sign_failed");
  }

  lemma HandlerEarns(cfg: Config, s: Sys, step: Step, j: Job)
    requires Shaped(s) && (step.Prepare? || step.Callback? || step.SubmitSignatures?)
    requires Makes(EffectOf(cfg, s, step), j)
    requires forall x :: Known(s, x) ==> Earned(x, s.log)
    ensures Earned(j, s.log + Made(s, EffectOf(cfg, s, step)))
  {
    var e := EffectOf(cfg, s, step);
    Lifecycle.HandlerIsOrderly(cfg, s, step);
    EffectIsLegal(cfg, s, step);
    if e.Settles? && AllReady(j.documents) {
      StoredIsWellFormed(s, e.before.jobId);
      EarnedGrows(e.before, s.log, Made(s, e));
    }
  }

  ghost predicate AllEarned(s: Sys) {
    forall j :: Known(s, j) ==> Earned(j, s.log)
  }

  lemma MadeIsEarned(cfg: Config, s: Sys, step: Step, j: Job)
    requires Shaped(s) && AllEarned(s) && Makes(EffectOf(cfg, s, step), j)
    ensures Earned(j, s.log + Made(s, EffectOf(cfg, s, step)))
  {
    if step.Prepare? || step.Callback? || step.SubmitSignatures? {
      HandlerEarns(cfg, s, step, j);
    } else if step.WorkerSign? || step.WorkerPush? || step.WorkerFinalize? {
      WorkerEarns(cfg, s, step, j);
    } else if step.WorkerLoad? {
      assert Stored(s, j) && Known(s, j);
      EarnedGrows(j, s.log, Made(s, EffectOf(cfg, s, step)));
    } else {
      WriterEarns(cfg, s, step, j);
    }
  }

  lemma {:induction false} AlwaysEarned(run: seq<Move>)
    ensures AllEarned(After(run))
  {
    if run != [] {
      var (s, m) := (After(run[..|run| - 1]), run[|run| - 1]);
      var e := EffectOf(m.cfg, s, m.step);
      AlwaysEarned(run[..|run| - 1]);
      AlwaysShaped(run[..|run| - 1]);
      EffectIsHonest(m.cfg, s, m.step);
      LogGrows(s, e);
      forall j | Known(After(run), j) ensures Earned(j, s.log + Made(s, e)) {
        OnlyKnownCopies(s, e, j);
        if Makes(e, j) { MadeIsEarned(m.cfg, s, m.step, j); } else { EarnedGrows(j, s.log, Made(s, e)); }
      }
    }
  }

  /** In every run a stored job with a READY document is one the provider took a finalize request for. */
  lemma {:induction false} ReadyWasTaken(run: seq<Move>, id: string, k: nat)
    requires
      var jobs := After(run).jobs;
      id in jobs && k < |jobs[id].documents| && jobs[id].documents[k].state.DocReady?
    ensures exists e :: e in After(run).log && e.Finalize? && Subject(e) == id && e.taken
  {
    AlwaysEarned(run);
    AlwaysShaped(run);
    StoredIsWellFormed(After(run), id);
  }
}
