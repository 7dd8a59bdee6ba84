/**
 The timestamp certificate (signing/authcert.go) over every run: each finalize or archive attempt
 is counted once, as a request or as a refusal; no call is sent that was not counted as a
 request; and under one configuration a CSC job that was accepted is never refused.
 */
module Timestamps {
  import opened Wrappers
  import opened Jobs
  import opened Upstream
  import opened AuthCert
  import opened Flows
  import opened Machine
  import opened Copies
  import opened Shape
  import opened AtMostOnce
  import opened Lifecycle
  import opened Certificates
  import DigestBinding

  /** The calls that have to do with the timestamp. */
  predicate Stamping(c: Event) {
    c.Requested? || c.Refused? || c.Finalize? || c.Archive?
  }

  // ---- Conservation ----

  /** The step attempts a finalize, or an archive of a READY document. */
  ghost predicate Attempt(s: Sys, step: Step) {
    || (step.WorkerFinalize? && s.WorkOf(step.w).ToFinalize?)
    || (step.ArchiveJobDocument? && exists k :: Asked(s, step.id, step.documentId, k))
  }

  lemma ArchiveAttempt(s: Sys, step: Step)
    requires step.ArchiveJobDocument?
    ensures Attempt(s, step) <==> Archivable(s, step.id, step.documentId).Some?
  {
    forall k: nat
      ensures Asked(s, step.id, step.documentId, k) <==> Archivable(s, step.id, step.documentId) == Some(k)
    {
      AskedExactly(s, step.id, step.documentId, k);
    }
  }

  ghost function Attempts(run: seq<Move>): nat {
    if run == [] then 0
    else Attempts(run[..|run| - 1]) + if Attempt(After(run[..|run| - 1]), run[|run| - 1].step) then 1 else 0
  }

  /** One attempt: a refusal alone, or a request and at most one call. */
  ghost predicate OneAttempt(events: seq<Event>) {
    || (|events| == 1 && (events[0].Requested? || events[0].Refused?))
    || (|events| == 2 && events[0].Requested? && (events[1].Finalize? || events[1].Archive?))
  }

  lemma SigningStampsNothing(j: Job, ans: SignAnswers)
    ensures forall c :: c in Sign(j, ans).events ==> !Stamping(c)
    ensures forall c :: c in PushDevice(j, ans).events ==> !Stamping(c)
  {
    if j.flow.IsCsc() { SignCscCalls(j, ans); }
  }

  lemma FinalizeIsOneAttempt(cfg: Config, j: Job, taken: bool)
    ensures OneAttempt(Finalized(cfg, j, taken).events)
  {
  }

  lemma MadeIsCounted(cfg: Config, s: Sys, step: Step)
    ensures
      var made := Made(s, EffectOf(cfg, s, step));
      if Attempt(s, step) then OneAttempt(made) else forall c :: c in made ==> !Stamping(c)
  {
    match step
    case Prepare(_, _, _, _) => HandlerMakes(cfg, s, step);
    case Callback(_, _, _, _, _, _) => HandlerMakes(cfg, s, step);
    case ArchiveJobDocument(_, _) =>
      ArchiveMakes(cfg, s, step);
      ArchiveAttempt(s, step);
    case WorkerSign(w, ans) =>
      SignMakes(cfg, s, step);
      if s.WorkOf(w).ToSign? { SigningStampsNothing(s.WorkOf(w).job, ans); }
    case WorkerPush(w, ans) =>
      PushMakes(cfg, s, step);
      if s.WorkOf(w).ToPush? { SigningStampsNothing(s.WorkOf(w).job, ans); }
    case WorkerFinalize(w, taken) =>
      FinalizeMakes(cfg, s, step);
      if s.WorkOf(w).ToFinalize? { FinalizeIsOneAttempt(cfg, s.WorkOf(w).job, taken); }
    case _ => SilentMakes(cfg, s, step);
  }

  /** The totals of one step's calls. */
  lemma {:induction false} AttemptTotals(made: seq<Event>)
    requires OneAttempt(made)
    ensures Total(made, RequestedKind) + Total(made, RefusedKind) == 1
    ensures Total(made, FinalizeKind) + Total(made, ArchiveKind) <= Total(made, RequestedKind)
  {
    forall kind ensures Total(made, kind)
      == Total([made[0]], kind) + (if |made| == 2 then Total([made[1]], kind) else 0) {
      if |made| == 2 {
        assert made == [made[0]] + [made[1]];
        TotalConcat([made[0]], [made[1]], kind);
      } else {
        assert made == [made[0]];
      }
    }
    forall kind, c ensures Total([c], kind) == if KindOf(c) == kind then 1 else 0 { OneCall(c, kind, ""); }
  }

  lemma {:induction false} UnstampedTotals(made: seq<Event>)
    requires forall c :: c in made ==> !Stamping(c)
    ensures Total(made, RequestedKind) == Total(made, RefusedKind) == Total(made, FinalizeKind)
      == Total(made, ArchiveKind) == 0
  {
    if made != [] {
      assert !Stamping(made[|made| - 1]);
      UnstampedTotals(made[..|made| - 1]);
    }
  }

  /**
   Requests and refusals counted are exactly the attempts made, and the finalize and archive
   calls sent are never more than the requests counted.
   */
  lemma {:induction false} EveryAttemptIsCounted(run: seq<Move>)
    ensures
      var log := After(run).log;
      && Total(log, RequestedKind) + Total(log, RefusedKind) == Attempts(run)
      && Total(log, FinalizeKind) + Total(log, ArchiveKind) <= Total(log, RequestedKind)
  {
    if run != [] {
      var (s, m) := (After(run[..|run| - 1]), run[|run| - 1]);
      var made := Made(s, EffectOf(m.cfg, s, m.step));
      EveryAttemptIsCounted(run[..|run| - 1]);
      LogGrows(s, EffectOf(m.cfg, s, m.step));
      forall kind ensures Total(s.log + made, kind)
        == Total(s.log, kind) + Total(made, kind) { TotalConcat(s.log, made, kind); }
      MadeIsCounted(m.cfg, s, m.step);
      if Attempt(s, m.step) { AttemptTotals(made); } else { UnstampedTotals(made); }
    }
  }

  // ---- Whose certificate ----

  /** The list the configuration was read from. */
  ghost predicate Configured(cfg: Config, list: string) {
    forall f: Flow :: f.Registered() ==> (cfg.accessCertFlows.Has(f) <==> Lists(list, f))
  }

  /** The deployment's certificate when the list names the job's flow, its own otherwise; either without outer space. */
  ghost predicate Due(cfg: Config, list: string, j: Job, certificate: string) {
    Trimmed(if Lists(list, j.flow) then cfg.tsaAccessCert else j.authCert, certificate)
  }

  /**
   Requested where there is a certificate, as the deployment's exactly when the list names the flow,
   refused where there is none, and sent with that very certificate.
   */
  ghost predicate Sourced(cfg: Config, list: string, c: Event) {
    match c
    case Requested(j, source, _) => (source.Deployment? <==> Lists(list, j.flow)) && !Due(cfg, list, j, "")
    case Refused(j, _) => Due(cfg, list, j, "")
    case Finalize(j, _, certificate, _) => certificate != "" && Due(cfg, list, j, certificate)
    case Archive(j, document, sessionId, certificate) =>
      && certificate != "" && Due(cfg, list, j, certificate)
      && document < |j.documents| && j.documents[document].state.DocReady?
      && sessionId == j.documents[document].sessionId
    case _ => true
  }

  lemma DueIsFor(cfg: Config, list: string, j: Job)
    requires Configured(cfg, list) && j.flow.Registered()
    ensures
      var c := CertificateFor(cfg, j.flow, j.authCert);
      && (c.source.Deployment? <==> Lists(list, j.flow))
      && forall text :: Due(cfg, list, j, text) <==> text == c.text
  {
    CertificateExactly(cfg, j.flow, j.authCert);
    forall text ensures Due(cfg, list, j, text) <==> Stands(cfg, j.flow, j.authCert, text) { }
  }

  lemma ArchiveIsSourced(cfg: Config, list: string, s: Sys, step: Step)
    requires step.ArchiveJobDocument? && (step.id in s.jobs ==> WellFormed(s.jobs[step.id])) && Configured(cfg, list)
    ensures forall c :: c in Made(s, EffectOf(cfg, s, step)) ==> Sourced(cfg, list, c)
  {
    if step.id in s.jobs { DueIsFor(cfg, list, s.jobs[step.id]); }
  }

  lemma FinalizeIsSourced(cfg: Config, list: string, j: Job, taken: bool)
    requires WellFormed(j) && Configured(cfg, list)
    ensures forall c :: c in Finalized(cfg, j, taken).events ==> Sourced(cfg, list, c)
  {
    DueIsFor(cfg, list, j);
  }

  lemma MadeIsSourced(cfg: Config, list: string, s: Sys, step: Step)
    requires Shaped(s) && Configured(cfg, list)
    ensures forall c :: c in Made(s, EffectOf(cfg, s, step)) ==> Sourced(cfg, list, c)
  {
    MadeIsCounted(cfg, s, step);
    if step.WorkerFinalize? && s.WorkOf(step.w).ToFinalize? {
      HeldIsWellFormed(s, step.w);
      FinalizeIsSourced(cfg, list, s.WorkOf(step.w).job, step.taken);
      FinalizeMakes(cfg, s, step);
    } else if step.ArchiveJobDocument? && step.id in s.jobs {
      StoredIsWellFormed(s, step.id);
      ArchiveIsSourced(cfg, list, s, step);
    }
  }

  /** One configuration throughout the run. */
  ghost predicate Under(run: seq<Move>, cfg: Config) {
    forall k :: 0 <= k < |run| ==> run[k].cfg == cfg
  }

  lemma {:induction false} AlwaysSourced(run: seq<Move>, cfg: Config, list: string, c: Event)
    requires Configured(cfg, list) && Under(run, cfg) && c in After(run).log
    ensures Sourced(cfg, list, c)
  {
    if run != [] {
      var (s, m) := (After(run[..|run| - 1]), run[|run| - 1]);
      LogGrows(s, EffectOf(m.cfg, s, m.step));
      if c in s.log {
        AlwaysSourced(run[..|run| - 1], cfg, list, c);
      } else {
        AlwaysShaped(run[..|run| - 1]);
        MadeIsSourced(m.cfg, list, s, m.step);
      }
    }
  }

  /** A request's source is the deployment exactly when the configured list names the flow or says "all". */
  lemma {:induction false} SourceIsByList(run: seq<Move>, cfg: Config, list: string, c: Event)
    requires Configured(cfg, list)
    requires Under(run, cfg) && c in After(run).log && c.Requested?
    ensures c.source.Deployment? <==> Lists(list, c.job.flow)
  {
    AlwaysSourced(run, cfg, list, c);
  }

  /** The certificate is the request's, or for a TrustedX job not given all three the answered authentication one. */
  ghost predicate Traced(c: Event, input: PrepareInput, log: seq<Event>)
    requires c.Finalize?
  {
    if c.job.flow.IsTrustedX() && !GivesAll(input) then
      exists i :: i in log && i.IdentityInfo? && Subject(i) == c.job.jobId
                  && i.identities.authCert.Some? && Trimmed(i.identities.authCert.value, c.certificate)
    else Trimmed(input.authCert, c.certificate)
  }

  /**
   Where the list does not name the flow, a finalize request carries the authentication certificate
   Prepare was given, or the one the provider answered for the authentication identity.
   */
  lemma {:induction false} SignersStampIsTraced(run: seq<Move>, cfg: Config, list: string, c: Event)
    requires Configured(cfg, list) && Under(run, cfg) && c in After(run).log && c.Finalize?
    requires !Lists(list, c.job.flow)
    ensures exists k :: PreparedAt(run, k, c.job.jobId) && Traced(c, run[k].step.input, After(run).log)
  {
    AlwaysSourced(run, cfg, list, c);
    DigestBinding.EvidenceIsSound(run, c);
    DigestBinding.EvidenceIsCertified(run, c);
    StampIsTraced(run, After(run).log, c);
  }

  lemma StampIsTraced(run: seq<Move>, log: seq<Event>, c: Event)
    requires c.Finalize? && !c.job.state.Failed? && WellFormed(c.job) && !c.job.pendingLeg.ProfileLeg?
    requires Certified(run, log, c.job) && Trimmed(c.job.authCert, c.certificate)
    ensures exists k :: PreparedAt(run, k, c.job.jobId) && Traced(c, run[k].step.input, log)
  {
    var k :| PreparedAt(run, k, c.job.jobId) && TakenFrom(c.job, run[k].step.input, log);
    if c.job.flow.IsTrustedX() && !GivesAll(run[k].step.input) {
      var i :| i in log && IdentifiedBy(c.job, i);
      assert Trimmed(i.identities.authCert.value, c.certificate);
    }
  }

  // ---- One attempt ----

  /** A finalize attempt is refused exactly when the certificate due is empty, and is counted either way. */
  lemma FinalizeAttempt(cfg: Config, list: string, s: Sys, w: nat, taken: bool)
    requires Shaped(s) && Configured(cfg, list) && s.WorkOf(w).ToFinalize?
    ensures
      var j := s.WorkOf(w).job;
      var s' := Next(cfg, s, WorkerFinalize(w, taken));
      if Due(cfg, list, j, "") then s'.log == s.log + [Event.Refused(j, SignOp)]
      else
        && |s'.log| > |s.log|
        && s'.log[|s.log|] == Requested(j, if Lists(list, j.flow) then Deployment else Signer, SignOp)
  {
    HeldIsWellFormed(s, w);
    var (j, step) := (s.WorkOf(w).job, WorkerFinalize(w, taken));
    DueIsFor(cfg, list, j);
    FinalizeMakes(cfg, s, step);
    LogGrows(s, EffectOf(cfg, s, step));
    FinalizeFirst(cfg, j, taken);
  }

  lemma FinalizeFirst(cfg: Config, j: Job, taken: bool)
    ensures
      var (cert, events) := (CertificateFor(cfg, j.flow, j.authCert), Finalized(cfg, j, taken).events);
      && events != []
      && if cert.Available() then events[0] == Requested(j, cert.source, SignOp)
         else events == [Event.Refused(j, SignOp)]
  {
  }

  /**
   An archive request goes to the session of the first document with the id asked for, with the
   certificate due, and is refused exactly when that is empty; if the document is not READY, or not
   there, nothing happens at all.
   */
  lemma ArchiveStep(cfg: Config, list: string, s: Sys, id: string, documentId: string, k: nat, certificate: string)
    requires Shaped(s) && Configured(cfg, list) && id in s.jobs && Due(cfg, list, s.jobs[id], certificate)
    ensures
      var (j, s') := (s.jobs[id], Next(cfg, s, ArchiveJobDocument(id, documentId)));
      && (FirstWith(j.documents, documentId, k) && j.documents[k].state.DocReady? ==>
            s' == s.(log := s.log + if certificate == "" then [Event.Refused(j, ArchiveOp)] else
                       [Requested(j, if Lists(list, j.flow) then Deployment else Signer, ArchiveOp),
                        Archive(j, k, j.documents[k].sessionId, certificate)]))
      && (FirstWith(j.documents, documentId, k) && !j.documents[k].state.DocReady? ==> s' == s)
      && ((forall i :: 0 <= i < |j.documents| ==> j.documents[i].documentId != documentId) ==> s' == s)
  {
    var j := s.jobs[id];
    StoredIsWellFormed(s, id);
    DueIsFor(cfg, list, j);
    CertificateExactly(cfg, j.flow, j.authCert);
    DocIndexFirst(j.documents, documentId);
    AskedExactly(s, id, documentId, k);
    ArchiveEffect(cfg, s, id, documentId);
    if Asked(s, id, documentId, k) { ArchiveMeans(cfg, j, k, certificate); }
  }

  lemma ArchiveEffect(cfg: Config, s: Sys, id: string, documentId: string)
    requires id in s.jobs
    ensures Next(cfg, s, ArchiveJobDocument(id, documentId)) ==
      match Archivable(s, id, documentId)
      case None => s
      case Some(k) => s.(log := s.log + ArchiveCalls(cfg, s.jobs[id], k))
  {
  }

  // ---- A CSC job is never refused ----

  /** Refused by the provider before it had a certificate: nothing will ever be asked for it. */
  ghost predicate Stillborn(j: Job) {
    j.state.Failed? && j.pendingLeg.NoLeg? && NoneReady(j.documents)
  }

  ghost predicate Backed(cfg: Config, j: Job) {
    j.flow.IsCsc() ==> CertificateFor(cfg, j.flow, j.authCert).Available() || Stillborn(j)
  }

  lemma PreparedIsBacked(cfg: Config, id: string, input: PrepareInput, ans: Answers)
    requires Admitted(cfg, input)
    ensures Backed(cfg, Prepared(id, input, ans).job)
  {
    CreatedIsDrafted(id, input, ans.sessions);
  }

  lemma CalledBackIsBacked(cfg: Config, j: Job, declined: bool, ans: Answers)
    requires Backed(cfg, j)
    ensures Backed(cfg, CalledBack(j, declined, ans).job)
  {
    CallbackAdvances(j, ans);
    if j.flow.IsCsc() && j.pendingLeg.CredentialLeg? && ans.token.Some? && ans.credential.Some?
      && ans.credential.value.leaf.Some? {
      var j1 :=
        j.(pkceVerifier := "", credentialId := ans.credential.value.credentialId,
           signingCert := ans.credential.value.leaf.value);
      CalculatedIsAlike(j1, j1.signingCert, ans.digests);
    }
  }

  ghost predicate AllBacked(cfg: Config, s: Sys) {
    forall j :: Known(s, j) ==> Backed(cfg, j)
  }

  lemma HandlerIsBacked(cfg: Config, s: Sys, step: Step, j: Job)
    requires Shaped(s) && AllBacked(cfg, s) && (step.Prepare? || step.Callback? || step.SubmitSignatures?)
    requires Makes(EffectOf(cfg, s, step), j)
    ensures Backed(cfg, j)
  {
    match step
    case Prepare(id, input, ans, _) => PreparedIsBacked(cfg, id, input, ans);
    case Callback(state, declined, ans, _, _, _) =>
      StoredIsWellFormed(s, s.index[state]);
      CalledBackIsBacked(cfg, s.jobs[s.index[state]], declined, ans);
    case _ =>
  }

  /** A worker never works on a stillborn job. */
  lemma WorkedIsBacked(cfg: Config, s: Sys, e: Effect, j: Job)
    requires Shaped(s) && AllBacked(cfg, s) && Legal(s, e) && Orderly(s, e) && (e.Works? || e.Writes?) && Makes(e, j)
    ensures Backed(cfg, j)
  {
    if s.WorkOf(e.w).Copy() { HeldIsWellFormed(s, e.w); } else { StoredIsWellFormed(s, s.WorkOf(e.w).id); }
  }

  lemma MadeIsBacked(cfg: Config, s: Sys, step: Step, j: Job)
    requires Shaped(s) && AllBacked(cfg, s) && Makes(EffectOf(cfg, s, step), j)
    ensures Backed(cfg, j)
  {
    if step.Prepare? || step.Callback? || step.SubmitSignatures? {
      HandlerIsBacked(cfg, s, step, j);
    } else {
      EffectIsLegal(cfg, s, step);
      EffectIsOrderly(cfg, s, step);
      WorkedIsBacked(cfg, s, EffectOf(cfg, s, step), j);
    }
  }

  lemma {:induction false} AlwaysBacked(run: seq<Move>, cfg: Config)
    requires Under(run, cfg)
    ensures AllBacked(cfg, After(run))
  {
    if run != [] {
      var (s, m) := (After(run[..|run| - 1]), run[|run| - 1]);
      AlwaysBacked(run[..|run| - 1], cfg);
      AlwaysShaped(run[..|run| - 1]);
      EffectIsHonest(cfg, s, m.step);
      forall j | Known(After(run), j) ensures Backed(cfg, j) {
        OnlyKnownCopies(s, EffectOf(cfg, s, m.step), j);
        if Makes(EffectOf(cfg, s, m.step), j) { MadeIsBacked(cfg, s, m.step, j); }
      }
    }
  }

  lemma FinalizeRefusal(cfg: Config, j: Job, taken: bool, c: Event)
    requires c in Finalized(cfg, j, taken).events && c.Refused?
    ensures c.job == j && !CertificateFor(cfg, j.flow, j.authCert).Available()
  {
  }

  lemma ArchiveRefusal(cfg: Config, s: Sys, step: Step, c: Event)
    requires step.ArchiveJobDocument? && c in Made(s, EffectOf(cfg, s, step)) && c.Refused?
    ensures step.id in s.jobs && c.job == s.jobs[step.id]
      && !CertificateFor(cfg, c.job.flow, c.job.authCert).Available()
    ensures !NoneReady(c.job.documents)
  {
  }

  lemma NoneRefused(cfg: Config, s: Sys, step: Step, c: Event)
    requires Shaped(s) && AllBacked(cfg, s) && c in Made(s, EffectOf(cfg, s, step)) && c.Refused?
    ensures !c.job.flow.IsCsc()
  {
    MadeIsCounted(cfg, s, step);
    assert Stamping(c) && Attempt(s, step);
    if step.WorkerFinalize? {
      HeldIsWellFormed(s, step.w);
      FinalizeRefusal(cfg, s.WorkOf(step.w).job, step.taken, c);
    } else {
      ArchiveRefusal(cfg, s, step, c);
      StoredIsWellFormed(s, step.id);
    }
  }

  /** Under one configuration, no CSC job is ever refused for want of a timestamp certificate. */
  lemma {:induction false} CscIsNeverRefused(run: seq<Move>, cfg: Config, c: Event)
    requires Under(run, cfg) && c in After(run).log && c.Refused?
    ensures !c.job.flow.IsCsc()
  {
    if run != [] {
      var (s, m) := (After(run[..|run| - 1]), run[|run| - 1]);
      LogGrows(s, EffectOf(m.cfg, s, m.step));
      if c in s.log {
        CscIsNeverRefused(run[..|run| - 1], cfg, c);
      } else {
        AlwaysShaped(run[..|run| - 1]);
        AlwaysBacked(run[..|run| - 1], cfg);
        NoneRefused(cfg, s, m.step, c);
      }
    }
  }
}
