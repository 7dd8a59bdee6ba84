/**
 Every copy of a job there is: in the store, in a worker's hands, or recorded with a signing or
 finalize call. A step makes at most one new copy out of one it knows, so a property of copies
 is an invariant as soon as each of the job-level functions keeps it.
 */
module Copies {
  import opened Wrappers
  import opened Jobs
  import opened Upstream
  import opened AuthCert
  import opened Flows
  import opened Machine

  /** The calls that record the job they were made for as evidence. */
  predicate Evidence(e: Event) {
    KindOf(e) == SignKind || KindOf(e) == FinalizeKind
  }

  ghost predicate Stored(s: Sys, j: Job) {
    exists id :: id in s.jobs && s.jobs[id] == j
  }

  ghost predicate Held(s: Sys, j: Job) {
    exists w :: w in s.workers && s.workers[w].Copy() && s.workers[w].job == j
  }

  ghost predicate Recorded(s: Sys, j: Job) {
    exists e :: e in s.log && Evidence(e) && e.job == j
  }

  ghost predicate Known(s: Sys, j: Job) {
    Stored(s, j) || Held(s, j) || Recorded(s, j)
  }

  /** The calls an effect logs. */
  function Made(s: Sys, e: Effect): seq<Event> {
    match e
    case Creates(_, events, _) => events
    case Settles(_, after, events, _, _, enqueued) => if enqueued then events + [Enqueue(after)] else events
    case Records(_, events) => events
    case Takes(_, _) => if s.queue == [] then [] else [Dequeue(s.queue[0])]
    case Works(_, events, _) => events
    case _ => []
  }

  /** The copy an effect brings about. */
  predicate Makes(e: Effect, j: Job) {
    match e
    case Creates(job, _, _) => j == job
    case Settles(_, after, _, _, _, _) => j == after
    case Works(_, _, work) => work.Copy() && j == work.job
    case Writes(_, _, work) => work.Copy() && j == work.job
    case _ => false
  }

  /** Only calls of the worker at hand are evidence, and they record the copy it holds. */
  ghost predicate Honest(s: Sys, e: Effect) {
    forall c :: c in Made(s, e) && Evidence(c) ==> Held(s, c.job)
  }

  lemma LogGrows(s: Sys, e: Effect)
    ensures Effected(s, e).log == s.log + Made(s, e)
  {
    assert s.log + [] == s.log;
    if e.Settles? {
      assert s.log + e.events + [Enqueue(e.after)] == s.log + (e.events + [Enqueue(e.after)]);
    }
  }

  /** The calls a handler makes before anything is signed. */
  predicate Preparatory(e: Event) {
    e.IdentityInfo? || e.CredentialInfo? || e.Calculated? || e.Consent? || e.Pushed? || e.Bound?
  }

  ghost predicate Preparation(events: seq<Event>, id: string) {
    forall e :: e in events ==> Preparatory(e) && Subject(e) == id
  }

  lemma CalculatedPrepares(j: Job, certificate: string, answer: Option<DigestAnswer>)
    ensures Preparation(CalculateDigests(j, certificate, answer).events, j.jobId)
    ensures CalculateDigests(j, certificate, answer).job.jobId == j.jobId
  {
  }

  lemma ConsentPrepares(j: Job, digests: Option<DigestAnswer>, state: Option<string>)
    ensures Preparation(BeginConsent(j, digests, state).events, j.jobId)
  {
    CalculatedPrepares(j, j.signingCert, digests);
  }

  lemma BegunTrustedXPrepares(j: Job, ans: Answers)
    ensures Preparation(BeginTrustedX(j, ans).events, j.jobId)
  {
    ConsentPrepares(j, ans.digests, ans.state);
  }

  lemma ProfilePrepares(j: Job, ans: Answers)
    ensures Preparation(AdvanceProfile(j, ans).events, j.jobId)
  {
    if ans.token.Some? && ans.identities.Some? && ans.identities.value.signing.Some? {
      var ids := ans.identities.value;
      var j3 := j.(profileToken := ans.token.value.access, signIdentityId := ids.signing.value,
                   signingCert := if ids.signingCert.None? then "" else ids.signingCert.value,
                   authCert := if ids.authCert.None? then "" else ids.authCert.value);
      ConsentPrepares(j3, ans.digests, ans.state);
    }
  }

  lemma CredentialPrepares(j: Job, token: Token, ans: Answers)
    ensures Preparation(AdvanceCredential(j, token, ans).events, j.jobId)
  {
    if ans.credential.Some? && ans.credential.value.leaf.Some? {
      var j1 := j.(credentialId := ans.credential.value.credentialId, signingCert := ans.credential.value.leaf.value);
      CalculatedPrepares(j1, j1.signingCert, ans.digests);
    }
  }

  lemma CallbackPrepares(j: Job, ans: Answers)
    ensures Preparation(AdvanceCallback(j, ans).events, j.jobId)
  {
    ProfilePrepares(j, ans);
    if ans.token.Some? { CredentialPrepares(j.(pkceVerifier := ""), ans.token.value, ans); }
  }

  lemma CalledBackPrepares(j: Job, declined: bool, ans: Answers)
    ensures Preparation(CalledBack(j, declined, ans).events, j.jobId)
  {
    CallbackPrepares(j, ans);
  }

  lemma BegunPrepares(j: Job, input: PrepareInput, ans: Answers)
    ensures Preparation(Begin(j, input, ans).events, j.jobId)
  {
    if input.flow.IsClientSide() {
      CalculatedPrepares(j.(signingCert := input.signingCert, authCert := input.authCert), input.signingCert,
                         ans.digests);
    } else if !input.flow.IsCsc() {
      BegunTrustedXPrepares(j, ans);
      var j1 :=
        j.(signIdentityId := input.signIdentityId, signingCert := input.signingCert, authCert := input.authCert);
      BegunTrustedXPrepares(j1, ans);
    }
  }

  lemma PreparedPrepares(id: string, input: PrepareInput, ans: Answers)
    ensures Preparation(Prepared(id, input, ans).events, id)
  {
    BegunPrepares(CreateSessions(NewJob(id, input), ans.sessions).job, input, ans);
  }

  lemma SigningRecordsItsJob(j: Job, ans: SignAnswers)
    ensures forall e :: e in Sign(j, ans).events && Evidence(e) ==> e.job == j
    ensures forall e :: e in PushDevice(j, ans).events && Evidence(e) ==> e.job == j
  {
    if j.flow.IsCsc() { SignCscCalls(j, ans); }
  }

  lemma FinalizeRecordsItsJob(cfg: Config, j: Job, taken: bool)
    ensures forall e :: e in Finalized(cfg, j, taken).events && Evidence(e) ==> e.job == j
  {
  }

  lemma HandlerIsHonest(s: Sys, e: Effect, id: string)
    requires e.Creates? || e.Settles?
    requires Preparation(e.events, id)
    ensures Honest(s, e)
  {
  }

  lemma ArchiveIsHonest(cfg: Config, s: Sys, step: Step)
    requires step.ArchiveJobDocument?
    ensures Honest(s, EffectOf(cfg, s, step))
  {
  }

  lemma SubmitIsHonest(cfg: Config, s: Sys, step: Step)
    requires step.SubmitSignatures?
    ensures Honest(s, EffectOf(cfg, s, step))
  {
    var e := EffectOf(cfg, s, step);
    if e.Settles? { HandlerIsHonest(s, e, step.id); }
  }

  lemma CallbackIsHonest(cfg: Config, s: Sys, step: Step)
    requires step.Prepare? || step.Callback?
    ensures Honest(s, EffectOf(cfg, s, step))
  {
    var e := EffectOf(cfg, s, step);
    if step.Prepare? {
      PreparedPrepares(step.id, step.input, step.ans);
      if e.Creates? { HandlerIsHonest(s, e, step.id); }
    } else if e.Settles? {
      CalledBackPrepares(e.before, step.declined, step.ans);
      HandlerIsHonest(s, e, e.before.jobId);
    }
  }

  lemma WorkerIsHonest(s: Sys, w: nat, events: seq<Event>, work: Work)
    requires s.WorkOf(w).Copy()
    requires forall e :: e in events && Evidence(e) ==> e.job == s.WorkOf(w).job
    ensures Honest(s, Works(w, events, work))
  {
    assert Held(s, s.WorkOf(w).job);
  }

  lemma EffectIsHonest(cfg: Config, s: Sys, step: Step)
    ensures Honest(s, EffectOf(cfg, s, step))
  {
    match step
    case Prepare(_, _, _, _) => CallbackIsHonest(cfg, s, step);
    case Callback(_, _, _, _, _, _) => CallbackIsHonest(cfg, s, step);
    case SubmitSignatures(_, _, _, _) => SubmitIsHonest(cfg, s, step);
    case ArchiveJobDocument(_, _) => ArchiveIsHonest(cfg, s, step);
    case WorkerSign(w, ans) =>
      if s.WorkOf(w).ToSign? {
        var j := s.WorkOf(w).job;
        SigningRecordsItsJob(j, ans);
        WorkerIsHonest(s, w, Sign(j, ans).events, Signed(j, Sign(j, ans)));
      }
    case WorkerPush(w, ans) =>
      if s.WorkOf(w).ToPush? {
        var j := s.WorkOf(w).job;
        SigningRecordsItsJob(j, ans);
        WorkerIsHonest(s, w, PushDevice(j, ans).events, AfterSign(PushDevice(j, ans)));
      }
    case WorkerFinalize(w, taken) =>
      if s.WorkOf(w).ToFinalize? {
        var j := s.WorkOf(w).job;
        FinalizeRecordsItsJob(cfg, j, taken);
        WorkerIsHonest(s, w, Finalized(cfg, j, taken).events, AfterFinalize(Finalized(cfg, j, taken)));
      }
    case _ =>
  }

  // ---- The calls of each step ----

  lemma SignMakes(cfg: Config, s: Sys, step: Step)
    requires step.WorkerSign?
    ensures Made(s, EffectOf(cfg, s, step))
      == if s.WorkOf(step.w).ToSign? then Sign(s.WorkOf(step.w).job, step.answers).events else []
  {
  }

  lemma PushMakes(cfg: Config, s: Sys, step: Step)
    requires step.WorkerPush?
    ensures Made(s, EffectOf(cfg, s, step))
      == if s.WorkOf(step.w).ToPush? then PushDevice(s.WorkOf(step.w).job, step.answers).events else []
  {
  }

  lemma FinalizeMakes(cfg: Config, s: Sys, step: Step)
    requires step.WorkerFinalize?
    ensures Made(s, EffectOf(cfg, s, step))
      == if s.WorkOf(step.w).ToFinalize? then Finalized(cfg, s.WorkOf(step.w).job, step.taken).events else []
  {
    if s.WorkOf(step.w).ToFinalize? { FinalizeEffect(cfg, s, step, Finalized(cfg, s.WorkOf(step.w).job, step.taken)); }
  }

  lemma FinalizeEffect(cfg: Config, s: Sys, step: Step, o: Outcome)
    requires step.WorkerFinalize? && s.WorkOf(step.w).ToFinalize?
      && o == Finalized(cfg, s.WorkOf(step.w).job, step.taken)
    ensures EffectOf(cfg, s, step) == Works(step.w, o.events, AfterFinalize(o))
  {
  }

  lemma ArchiveMakes(cfg: Config, s: Sys, step: Step)
    requires step.ArchiveJobDocument?
    ensures
      var found := Archivable(s, step.id, step.documentId);
      && (found.Some? ==> step.id in s.jobs)
      && Made(s, EffectOf(cfg, s, step)) == if found.Some? then ArchiveCalls(cfg, s.jobs[step.id], found.value) else []
  {
  }

  /** Every other step makes no call but to the queue. */
  predicate Silent(step: Step) {
    || step.SubmitSignatures? || step.DeleteJob? || step.WorkerDequeue? || step.WorkerLoad? || step.WorkerPublish?
    || step.WorkerSave? || step.WorkerCrash?
  }

  lemma SilentMakes(cfg: Config, s: Sys, step: Step)
    requires Silent(step)
    ensures forall c :: c in Made(s, EffectOf(cfg, s, step)) ==> c.Enqueue? || c.Dequeue?
  {
  }

  lemma HandlerMakes(cfg: Config, s: Sys, step: Step)
    requires step.Prepare? || step.Callback?
    ensures forall c :: c in Made(s, EffectOf(cfg, s, step)) ==> Preparatory(c) || c.Enqueue?
  {
    var e := EffectOf(cfg, s, step);
    if step.Prepare? {
      PreparedPrepares(step.id, step.input, step.ans);
    } else if e.Settles? {
      CalledBackPrepares(e.before, step.declined, step.ans);
    }
  }

  lemma SettledJobs(s: Sys, e: Effect)
    requires e.Settles?
    ensures Effected(s, e).jobs == if e.save.Written() then s.jobs[e.after.jobId := e.after] else s.jobs
  {
  }

  lemma WrittenJobs(s: Sys, e: Effect)
    requires e.Writes?
    ensures var work := s.WorkOf(e.w);
            Effected(s, e).jobs == if e.save.Written() && work.Copy() then s.jobs[work.job.jobId := work.job]
                                   else s.jobs
  {
  }

  lemma OtherJobs(s: Sys, e: Effect)
    requires !e.Settles? && !e.Writes? && !e.Creates? && !e.Deletes?
    ensures Effected(s, e).jobs == s.jobs
  {
  }

  lemma StoredFrom(s: Sys, e: Effect, id: string)
    requires id in Effected(s, e).jobs
    ensures
      var j := Effected(s, e).jobs[id];
      || (id in s.jobs && s.jobs[id] == j)
      || (Makes(e, j) && (e.Creates? || e.Settles?))
      || (e.Writes? && s.WorkOf(e.w).Copy() && s.WorkOf(e.w).job == j)
    ensures (id in s.jobs && s.jobs[id] == Effected(s, e).jobs[id]) || Effected(s, e).jobs[id].jobId == id
  {
    match e
    case Creates(_, _, _) =>
    case Deletes(_, _, _) =>
    case Settles(_, _, _, _, _, _) => SettledJobs(s, e);
    case Writes(_, _, _) => WrittenJobs(s, e);
    case _ => OtherJobs(s, e);
  }

  lemma HeldFrom(s: Sys, e: Effect, w: nat)
    requires w in Effected(s, e).workers
    ensures
      || (w in s.workers && s.workers[w] == Effected(s, e).workers[w])
      || (e.Takes? && e.w == w && !Effected(s, e).workers[w].Copy())
      || ((e.Works? || e.Writes?) && e.w == w && Effected(s, e).workers[w] == e.work)
  {
  }

  /** Nothing but the copies already known and the one just made. */
  lemma {:induction false} OnlyKnownCopies(s: Sys, e: Effect, j: Job)
    requires Honest(s, e) && Known(Effected(s, e), j)
    ensures Known(s, j) || Makes(e, j)
  {
    var s' := Effected(s, e);
    if Recorded(s', j) {
      LogGrows(s, e);
      var c :| c in s'.log && Evidence(c) && c.job == j;
      assert c in s.log || c in Made(s, e);
    } else if Stored(s', j) {
      var id :| id in s'.jobs && s'.jobs[id] == j;
      StoredFrom(s, e, id);
    } else {
      var w :| w in s'.workers && s'.workers[w].Copy() && s'.workers[w].job == j;
      HeldFrom(s, e, w);
    }
  }
}
