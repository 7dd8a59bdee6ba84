/**
 Whose certificates a job carries, in every run: those the request gave to Prepare, or for a
 TrustedX job that was not given all three those the provider answered on the profile leg.
 */
module Certificates {
  import opened Wrappers
  import opened Jobs
  import opened Upstream
  import opened AuthCert
  import opened Flows
  import opened Machine
  import opened Copies
  import opened Shape

  /** The answer the job took its identity and both certificates from. */
  ghost predicate IdentifiedBy(j: Job, c: Event) {
    && c.IdentityInfo? && Subject(c) == j.jobId
    && c.identities.signing == Some(j.signIdentityId)
    && c.identities.signingCert == Some(j.signingCert)
    && c.identities.authSelected && c.identities.authCert == Some(j.authCert)
  }

  ghost predicate Identified(j: Job, log: seq<Event>) {
    exists c :: c in log && IdentifiedBy(j, c)
  }

  /** The request names the identity and carries both of its certificates. */
  predicate GivesAll(input: PrepareInput) {
    input.signIdentityId != "" && input.signingCert != "" && input.authCert != ""
  }

  /** What the job has of the request it was prepared from, and otherwise of the provider's answer. */
  ghost predicate TakenFrom(j: Job, input: PrepareInput, log: seq<Event>) {
    && j.flow == input.flow
    && (j.flow.IsClientSide() ==> j.signingCert == input.signingCert && j.authCert == input.authCert)
    && (j.flow.IsCsc() ==> j.authCert == input.authCert)
    && (j.flow.IsTrustedX() ==>
          if GivesAll(input) then
            && j.signIdentityId == input.signIdentityId && j.signingCert == input.signingCert
            && j.authCert == input.authCert && !j.pendingLeg.ProfileLeg?
          else if j.pendingLeg.ProfileLeg? then j.signIdentityId == j.signingCert == j.authCert == ""
          else Identified(j, log))
  }

  /** Move k of the run prepared the job. */
  ghost predicate PreparedAt(run: seq<Move>, k: int, id: string) {
    0 <= k < |run| && run[k].step.Prepare? && run[k].step.id == id
  }

  ghost predicate Certified(run: seq<Move>, log: seq<Event>, j: Job) {
    j.state.Failed? || exists k :: PreparedAt(run, k, j.jobId) && TakenFrom(j, run[k].step.input, log)
  }

  // ---- What keeps them ----

  ghost predicate SameCertificates(a: Job, b: Job) {
    && a.jobId == b.jobId && a.flow == b.flow && a.pendingLeg == b.pendingLeg
    && a.signIdentityId == b.signIdentityId && a.signingCert == b.signingCert && a.authCert == b.authCert
  }

  lemma TakenGrows(j: Job, input: PrepareInput, log: seq<Event>, more: seq<Event>)
    requires TakenFrom(j, input, log)
    ensures TakenFrom(j, input, log + more)
  {
    if Identified(j, log) {
      var c :| c in log && IdentifiedBy(j, c);
      assert c in log + more;
    }
  }

  lemma SameAreTaken(a: Job, b: Job, input: PrepareInput, log: seq<Event>)
    requires SameCertificates(a, b) && TakenFrom(a, input, log)
    ensures TakenFrom(b, input, log)
  {
    if Identified(a, log) {
      var c :| c in log && IdentifiedBy(a, c);
      assert IdentifiedBy(b, c);
    }
  }

  /** A longer run and log are evidence for whatever a shorter one was, and so for a job with the same certificates. */
  lemma CertifiedGrows(run: seq<Move>, m: Move, log: seq<Event>, more: seq<Event>, a: Job, b: Job)
    requires Certified(run, log, a) && SameCertificates(a, b) && (a.state.Failed? ==> b.state.Failed?)
    ensures Certified(run + [m], log + more, b)
  {
    if !a.state.Failed? {
      var k :| PreparedAt(run, k, a.jobId) && TakenFrom(a, run[k].step.input, log);
      SameAreTaken(a, b, run[k].step.input, log);
      TakenGrows(b, run[k].step.input, log, more);
      assert PreparedAt(run + [m], k, b.jobId) && (run + [m])[k] == run[k];
    }
  }

  lemma CalculatedKeepsCertificates(j: Job, certificate: string, answer: Option<DigestAnswer>)
    ensures SameCertificates(j, CalculateDigests(j, certificate, answer).job)
  {
  }

  lemma ConsentKeepsCertificates(j: Job, digests: Option<DigestAnswer>, state: Option<string>)
    ensures
      var o := BeginConsent(j, digests, state);
      && SameCertificates(j, o.job.(pendingLeg := j.pendingLeg))
      && (o.ok ==> o.job.pendingLeg.SignLeg?)
  {
    CalculatedKeepsCertificates(j, j.signingCert, digests);
  }

  // ---- Prepare ----

  /** The job Prepare saves takes its certificates from the request. */
  lemma PreparedIsTaken(id: string, input: PrepareInput, ans: Answers, log: seq<Event>)
    requires input.flow.Registered() && ValidBatch(input)
    ensures
      var j := Prepared(id, input, ans).job;
      j.state.Failed? || (j.jobId == id && TakenFrom(j, input, log))
  {
    var c := CreateSessions(NewJob(id, input), ans.sessions);
    CreatedIsDrafted(id, input, ans.sessions);
    if c.ok { BegunIsTaken(c.job, input, ans, log); }
  }

  lemma BegunIsTaken(j: Job, input: PrepareInput, ans: Answers, log: seq<Event>)
    requires j.flow == input.flow && j.flow.Registered() && j.state.Preparing? && j.pendingLeg.NoLeg?
    requires j.signIdentityId == j.signingCert == j.authCert == ""
    ensures
      var j' := Begin(j, input, ans).job;
      j'.state.Failed? || (j'.jobId == j.jobId && TakenFrom(j', input, log))
  {
    if input.flow.IsClientSide() {
      CalculatedKeepsCertificates(j.(signingCert := input.signingCert, authCert := input.authCert), input.signingCert,
                                  ans.digests);
    } else if input.flow.IsTrustedX() && GivesAll(input) {
      var j1 :=
        j.(signIdentityId := input.signIdentityId, signingCert := input.signingCert, authCert := input.authCert);
      ConsentKeepsCertificates(j1, ans.digests, ans.state);
    }
  }

  // ---- Callback ----

  /** On the profile leg a redirect leaves the answered identity and both its certificates on the job. */
  lemma ProfileIsIdentified(j: Job, ans: Answers)
    requires AdvanceProfile(j, ans).verdict.Redirect?
    ensures
      var a := AdvanceProfile(j, ans);
      && a.job.jobId == j.jobId && a.job.flow == j.flow && a.job.pendingLeg.SignLeg?
      && a.events != [] && IdentifiedBy(a.job, a.events[0])
  {
    var (j1, ids) := (j.(profileToken := ans.token.value.access), ans.identities.value);
    var j3 := j1.(signIdentityId := ids.signing.value, signingCert := ids.signingCert.value,
                  authCert := ids.authCert.value);
    ConsentKeepsCertificates(j3, ans.digests, ans.state);
  }

  lemma CalledBackIsTaken(j: Job, declined: bool, ans: Answers, input: PrepareInput, log: seq<Event>)
    requires WellFormed(j) && !j.state.Failed? && TakenFrom(j, input, log)
    ensures
      var a := CalledBack(j, declined, ans);
      a.job.state.Failed? || TakenFrom(a.job, input, log + a.events)
  {
    var a := CalledBack(j, declined, ans);
    if !a.job.state.Failed? {
      CallbackAdvances(j, ans);
      if j.pendingLeg.ProfileLeg? {
        ProfileIsIdentified(j, ans);
        assert a.events[0] in log + a.events;
      } else if j.pendingLeg.CredentialLeg? {
        CredentialKeepsAuthCert(j.(pkceVerifier := ""), ans.token.value, ans);
      } else {
        TakenGrows(j, input, log, a.events);
        if Identified(j, log + a.events) {
          var c :| c in log + a.events && IdentifiedBy(j, c);
          assert IdentifiedBy(a.job, c);
        }
      }
    }
  }

  lemma CredentialKeepsAuthCert(j: Job, token: Token, ans: Answers)
    ensures var a := AdvanceCredential(j, token, ans); a.job.authCert == j.authCert && a.job.flow == j.flow
  {
    if ans.credential.Some? && ans.credential.value.leaf.Some? {
      var j1 := j.(credentialId := ans.credential.value.credentialId, signingCert := ans.credential.value.leaf.value);
      CalculatedKeepsCertificates(j1, j1.signingCert, ans.digests);
    }
  }

  // ---- Every copy, in every run ----

  ghost predicate AllCertified(run: seq<Move>) {
    forall j :: Known(After(run), j) ==> Certified(run, After(run).log, j)
  }

  /** What the next move makes is certified by the run with that move. */
  ghost predicate Certifies(run: seq<Move>, m: Move) {
    var e := EffectOf(m.cfg, After(run), m.step);
    forall j :: Makes(e, j) ==> Certified(run + [m], After(run).log + Made(After(run), e), j)
  }

  lemma FailedStaysFailed(j: Job, declined: bool, ans: Answers)
    requires j.state.Failed?
    ensures CalledBack(j, declined, ans).job.state.Failed?
  {
    CallbackAdvances(j, ans);
  }

  lemma PrepareCertifies(run: seq<Move>, m: Move)
    requires m.step.Prepare?
    ensures Certifies(run, m)
  {
    var (s, step) := (After(run), m.step);
    if Admitted(m.cfg, step.input) {
      var o := Prepared(step.id, step.input, step.ans);
      PreparedIsTaken(step.id, step.input, step.ans, s.log + o.events);
      assert o.job.state.Failed? || PreparedAt(run + [m], |run|, o.job.jobId);
    }
  }

  lemma CallbackCertifies(run: seq<Move>, m: Move)
    requires m.step.Callback? && AllCertified(run)
    ensures Certifies(run, m)
  {
    var (s, step) := (After(run), m.step);
    var e := EffectOf(m.cfg, s, step);
    if e.Settles? {
      AlwaysShaped(run);
      StoredIsWellFormed(s, s.index[step.state]);
      SettledCertifies(run, m, e.before, e);
    }
  }

  lemma {:induction false} SettledCertifies(run: seq<Move>, m: Move, j: Job, e: Effect)
    requires m.step.Callback? && WellFormed(j) && Certified(run, After(run).log, j)
    requires
      var a := CalledBack(j, m.step.declined, m.step.ans);
      e.Settles? && e.before == j && e.after == a.job && e.events == a.events
    ensures Certified(run + [m], After(run).log + Made(After(run), e), e.after)
  {
    var (log, made) := (After(run).log, Made(After(run), e));
    if j.state.Failed? {
      FailedStaysFailed(j, m.step.declined, m.step.ans);
    } else {
      var k :| PreparedAt(run, k, j.jobId) && TakenFrom(j, run[k].step.input, log);
      CalledBackIsTaken(j, m.step.declined, m.step.ans, run[k].step.input, log);
      CalledBackIsWellFormed(j, m.step.declined, m.step.ans);
      if !e.after.state.Failed? {
        TakenGrows(e.after, run[k].step.input, log + e.events, [Enqueue(e.after)]);
        assert log + e.events + [Enqueue(e.after)] == log + (e.events + [Enqueue(e.after)]);
        assert PreparedAt(run + [m], k, e.after.jobId) && (run + [m])[k] == run[k];
      }
    }
  }

  lemma SubmitCertifies(run: seq<Move>, m: Move)
    requires m.step.SubmitSignatures? && AllCertified(run)
    ensures Certifies(run, m)
  {
    var s := After(run);
    var e := EffectOf(m.cfg, s, m.step);
    if e.Settles? {
      AlwaysShaped(run);
      StoredIsWellFormed(s, m.step.id);
      CertifiedGrows(run, m, s.log, Made(s, e), e.before, e.after);
    }
  }

  lemma SigningKeepsCertificates(j: Job, ans: SignAnswers)
    ensures SameCertificates(j, Sign(j, ans).job) && SameCertificates(j, PushDevice(j, ans).job)
  {
  }

  lemma FinalizeKeepsCertificates(cfg: Config, j: Job, taken: bool)
    ensures SameCertificates(j, Finalized(cfg, j, taken).job)
  {
  }

  /** A worker's next copy has the certificates of the one it holds. */
  lemma WorkerKeepsCertificates(cfg: Config, s: Sys, step: Step, j: Job)
    requires step.WorkerSign? || step.WorkerPush? || step.WorkerFinalize? || step.WorkerPublish? || step.WorkerSave?
    requires Shaped(s) && s.WorkOf(step.w).Copy() && Makes(EffectOf(cfg, s, step), j)
    ensures SameCertificates(s.WorkOf(step.w).job, j)
  {
    var held := s.WorkOf(step.w).job;
    if step.WorkerSign? {
      SigningKeepsCertificates(held, step.answers);
      OutcomeKeepsCertificates(held, Sign(held, step.answers));
    } else if step.WorkerPush? {
      SigningKeepsCertificates(held, step.answers);
      OutcomeKeepsCertificates(held, PushDevice(held, step.answers));
    } else if step.WorkerFinalize? {
      var o := Finalized(cfg, held, step.taken);
      FinalizeKeepsCertificates(cfg, held, step.taken);
      OutcomeKeepsCertificates(held, o);
      FinalizeEffect(cfg, s, step, o);
    } else {
      WriteKeepsCertificates(cfg, s, step, j);
    }
  }

  lemma WriteKeepsCertificates(cfg: Config, s: Sys, step: Step, j: Job)
    requires step.WorkerPublish? || step.WorkerSave?
    requires s.WorkOf(step.w).Copy() && Makes(EffectOf(cfg, s, step), j)
    ensures SameCertificates(s.WorkOf(step.w).job, j)
  {
  }

  lemma OutcomeKeepsCertificates(j: Job, o: Outcome)
    requires SameCertificates(j, o.job)
    ensures SameCertificates(j, AfterSign(o).job) && SameCertificates(j, AfterFinalize(o).job)
    ensures Signed(j, o).Copy() && SameCertificates(j, Signed(j, o).job)
  {
  }

  /** A worker makes nothing of a failed copy. */
  lemma WorkerHoldsLive(cfg: Config, s: Sys, step: Step, j: Job)
    requires step.WorkerSign? || step.WorkerPush? || step.WorkerFinalize? || step.WorkerPublish? || step.WorkerSave?
    requires Shaped(s) && s.WorkOf(step.w).Copy() && Makes(EffectOf(cfg, s, step), j)
    ensures !s.WorkOf(step.w).job.state.Failed?
  {
    HeldIsWellFormed(s, step.w);
  }

  lemma LoadMakesStored(cfg: Config, s: Sys, step: Step, j: Job)
    requires step.WorkerLoad? && Makes(EffectOf(cfg, s, step), j)
    ensures Stored(s, j)
  {
  }

  lemma WorkerMakesFromHeld(cfg: Config, s: Sys, step: Step, j: Job)
    requires step.WorkerSign? || step.WorkerPush? || step.WorkerFinalize? || step.WorkerPublish? || step.WorkerSave?
    requires Makes(EffectOf(cfg, s, step), j)
    ensures s.WorkOf(step.w).Copy()
  {
  }

  lemma {:induction false} WorkerCertifies(run: seq<Move>, m: Move, j: Job)
    requires AllCertified(run) && !m.step.Prepare? && !m.step.Callback? && !m.step.SubmitSignatures?
    requires Makes(EffectOf(m.cfg, After(run), m.step), j)
    ensures
      var e := EffectOf(m.cfg, After(run), m.step);
      Certified(run + [m], After(run).log + Made(After(run), e), j)
  {
    var (s, step) := (After(run), m.step);
    var e := EffectOf(m.cfg, s, step);
    AlwaysShaped(run);
    if step.WorkerLoad? {
      LoadMakesStored(m.cfg, s, step, j);
      assert Known(s, j);
      CertifiedGrows(run, m, s.log, Made(s, e), j, j);
    } else {
      WorkerMakesFromHeld(m.cfg, s, step, j);
      HeldIsWellFormed(s, step.w);
      WorkerKeepsCertificates(m.cfg, s, step, j);
      WorkerHoldsLive(m.cfg, s, step, j);
      CertifiedGrows(run, m, s.log, Made(s, e), s.WorkOf(step.w).job, j);
    }
  }

  lemma MoveCertifies(run: seq<Move>, m: Move)
    requires AllCertified(run)
    ensures Certifies(run, m)
  {
    if m.step.Prepare? {
      PrepareCertifies(run, m);
    } else if m.step.Callback? {
      CallbackCertifies(run, m);
    } else if m.step.SubmitSignatures? {
      SubmitCertifies(run, m);
    } else {
      forall j | Makes(EffectOf(m.cfg, After(run), m.step), j)
        ensures
          var e := EffectOf(m.cfg, After(run), m.step);
          Certified(run + [m], After(run).log + Made(After(run), e), j)
      {
        WorkerCertifies(run, m, j);
      }
    }
  }

  lemma {:induction false} CopyIsCertified(run: seq<Move>, m: Move, j: Job)
    requires AllCertified(run) && Certifies(run, m)
    requires Known(After(run), j) || Makes(EffectOf(m.cfg, After(run), m.step), j)
    ensures
      var e := EffectOf(m.cfg, After(run), m.step);
      Certified(run + [m], After(run).log + Made(After(run), e), j)
  {
    var (s, e) := (After(run), EffectOf(m.cfg, After(run), m.step));
    if Known(s, j) { CertifiedGrows(run, m, s.log, Made(s, e), j, j); }
  }

  /**
   In every run every copy of a job that has not failed carries the certificates its Prepare was
   given, or, for a TrustedX job past the profile leg that was not given all three, the identity, the
   signing certificate and the authentication certificate of one logged answer.
   */
  lemma {:induction false} AlwaysCertified(run: seq<Move>)
    ensures AllCertified(run)
  {
    if run != [] {
      var (init, m) := (run[..|run| - 1], run[|run| - 1]);
      var (s, e) := (After(init), EffectOf(m.cfg, After(init), m.step));
      AlwaysCertified(init);
      MoveCertifies(init, m);
      EffectIsHonest(m.cfg, s, m.step);
      LogGrows(s, e);
      assert run == init + [m];
      forall j | Known(After(run), j) ensures Certified(run, After(run).log, j) {
        OnlyKnownCopies(s, e, j);
        CopyIsCertified(init, m, j);
      }
    }
  }
}
