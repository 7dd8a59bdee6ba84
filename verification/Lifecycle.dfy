/**
 How stored jobs move. Documents become READY together, stay READY whatever happens to their
 job, and keep no signature value. A stored state moves along the transition table or to FAILED;
 FAILED is left exactly when a worker that still holds an older copy overwrites it, which cannot
 happen when no handler touches a job a worker is running.
 */
module Lifecycle {
  import opened Wrappers
  import opened Bytes
  import opened Jobs
  import opened Upstream
  import opened AuthCert
  import opened Flows
  import opened Machine
  import opened Copies
  import opened Shape
  import opened AtMostOnce
  import opened StateIndex
  import Base64
  import Der
  import Ecdsa

  // ---- Job level ----

  lemma AlikeReady(a: Job, b: Job)
    requires Alike(a, b) && Drafted(a)
    ensures AllReady(a.documents) <==> AllReady(b.documents)
  {
    if AllReady(b.documents) { assert !NoneReady(a.documents) by { assert b.documents[0].state.DocReady?; } }
  }

  lemma FailedReady(j: Job, code: string)
    requires Drafted(j)
    ensures AllReady(j.documents) <==> AllReady(FailedWith(j, code).documents)
  {
    if AllReady(FailedWith(j, code).documents) {
      assert !NoneReady(j.documents) by { assert FailedWith(j, code).documents[0].state.DocReady?; }
    }
  }

  lemma PreparedNoneReady(id: string, input: PrepareInput, ans: Answers)
    requires input.flow.Registered() && ValidBatch(input)
    ensures !AllReady(Prepared(id, input, ans).job.documents)
  {
    var c := CreateSessions(NewJob(id, input), ans.sessions).job;
    CreatedIsDrafted(id, input, ans.sessions);
    FailedReady(c, "signapi:upload_failed");
    BegunNoneReady(c, input, ans);
  }

  lemma BegunNoneReady(j: Job, input: PrepareInput, ans: Answers)
    requires Drafted(j) && NoneReady(j.documents) && j.flow == input.flow
    ensures !AllReady(Begin(j, input, ans).job.documents)
  {
    if input.flow.IsClientSide() { BegunClientIsUnready(j, input, ans); } else { BegunRemoteIsUnready(j, input, ans); }
  }

  lemma BegunClientIsUnready(j: Job, input: PrepareInput, ans: Answers)
    requires j.documents != [] && NoneReady(j.documents) && input.flow.IsClientSide()
    ensures Unready(j, Begin(j, input, ans).job)
  {
    var j1 := j.(signingCert := input.signingCert, authCert := input.authCert);
    CalculatedIsAlike(j1, input.signingCert, ans.digests);
    UnreadyStays(j, CalculateDigests(j1, input.signingCert, ans.digests).job, "signapi:calculate_digest_failed");
  }

  lemma BegunRemoteIsUnready(j: Job, input: PrepareInput, ans: Answers)
    requires j.documents != [] && NoneReady(j.documents) && !input.flow.IsClientSide()
    ensures Unready(j, Begin(j, input, ans).job)
  {
    var supplied := input.signIdentityId != "" && input.signingCert != "" && input.authCert != "";
    var j1 :=
      if input.flow.IsCsc() then j.(authCert := input.authCert)
      else if supplied then
        j.(signIdentityId := input.signIdentityId, signingCert := input.signingCert, authCert := input.authCert)
      else j;
    var b := if input.flow.IsCsc() then BeginCsc(j1, ans) else BeginTrustedX(j1, ans);
    BegunTrustedXIsUnready(j1, ans);
    UnreadyStays(j, b.job, "signing:begin_authorization_failed");
  }

  lemma UnreadyStays(j: Job, b: Job, code: string)
    requires Unready(j, b)
    ensures Unready(j, FailedWith(b, code)) && forall to :: Unready(j, Transitioned(b, to))
  {
  }

  /** As many documents, and the first of them not READY. */
  ghost predicate Unready(j: Job, b: Job) {
    |b.documents| == |j.documents| && j.documents != [] && !b.documents[0].state.DocReady?
  }

  lemma BegunTrustedXIsUnready(j: Job, ans: Answers)
    requires j.documents != [] && NoneReady(j.documents)
    ensures Unready(j, BeginTrustedX(j, ans).job)
  {
    BeginConsentIsAlike(j, ans.digests, ans.state);
  }

  /** A handler's move: to FAILED, nowhere, or one step of the table; the documents' fate is kept. */
  ghost predicate MovedOn(before: Job, after: Job) {
    && (AllReady(before.documents) <==> AllReady(after.documents))
    && (after.state.Failed? || CanTransition(before.state, after.state))
    && (Past(before) ==> after.state.Failed?)
  }

  lemma CalledBackMovesOn(j: Job, declined: bool, ans: Answers)
    requires WellFormed(j)
    ensures MovedOn(j, CalledBack(j, declined, ans).job)
    ensures declined ==> CalledBack(j, declined, ans).job.state.Failed? && CalledBack(j, declined, ans).events == []
  {
    var a := AdvanceCallback(j, ans);
    CallbackAdvances(j, ans);
    FailedReady(j, "signing:declined");
    if !j.flow.IsClientSide() {
      AlikeIsDrafted(j, a.job);
      AlikeReady(j, a.job);
      FailedReady(a.job, "signing:callback_failed");
    } else {
      FailedReady(j, "signing:callback_failed");
    }
  }

  lemma SubmittedMovesOn(cfg: Config, j: Job, sigs: seq<Submitted>)
    requires WellFormed(j) && Submit(cfg, j, sigs).Some?
    ensures MovedOn(j, Submit(cfg, j, sigs).value)
  {
    SubmittedIsWellFormed(cfg, j, sigs);
    assert !j.documents[0].state.DocReady?;
    var j' := Submit(cfg, j, sigs).value;
    AttachedKeeps(j.documents, sigs);
    assert !j'.documents[0].state.DocReady?;
  }

  /** A worker's move: along the table or to FAILED; only a READY job has READY documents. */
  ghost predicate WorkedOn(before: Job, after: Job) {
    && Leads(before.state, after.state)
    && (AllReady(after.documents) ==> after.state.Ready?)
  }

  /** The first document tells: failing a job none of whose documents is READY leaves none READY. */
  lemma FailedNoneReady(j: Job, code: string)
    requires j.documents != [] && NoneReady(j.documents)
    ensures !AllReady(FailedWith(j, code).documents)
  {
    assert !FailedWith(j, code).documents[0].state.DocReady?;
  }

  // ---- Effects ----

  ghost predicate Orderly(s: Sys, e: Effect) {
    match e
    case Creates(j, _, _) => !AllReady(j.documents)
    case Settles(before, after, _, _, _, _) => MovedOn(before, after)
    case Works(w, _, work) =>
      s.WorkOf(w).Copy() && work.Copy() ==> WorkedOn(s.WorkOf(w).job, work.job) && !s.WorkOf(w).job.state.Terminal()
    case Writes(w, _, work) =>
      s.WorkOf(w).Copy() && work.Copy() ==> WorkedOn(s.WorkOf(w).job, work.job) && !s.WorkOf(w).job.state.Terminal()
    case _ => true
  }

  lemma HandlerIsOrderly(cfg: Config, s: Sys, step: Step)
    requires Shaped(s) && (step.Prepare? || step.Callback? || step.SubmitSignatures?)
    ensures Orderly(s, EffectOf(cfg, s, step))
  {
    match step
    case Prepare(id, input, ans, _) => if Admitted(cfg, input) { PreparedNoneReady(id, input, ans); }
    case Callback(state, declined, ans, _, _, _) =>
      if state in s.index && s.index[state] in s.jobs {
        StoredIsWellFormed(s, s.index[state]);
        CalledBackMovesOn(s.jobs[s.index[state]], declined, ans);
      }
    case SubmitSignatures(id, sigs, _, _) =>
      if id in s.jobs && Submit(cfg, s.jobs[id], sigs).Some? {
        StoredIsWellFormed(s, id);
        SubmittedMovesOn(cfg, s.jobs[id], sigs);
      }
    case _ =>
  }

  lemma SignIsOrderly(j: Job, o: Outcome)
    requires WellFormed(j) && j.state.Signing? && Alike(j, o.job)
    ensures Signed(j, o).Copy() && WorkedOn(j, Signed(j, o).job) && WorkedOn(j, AfterSign(o).job)
  {
    assert !j.documents[0].state.DocReady? && !o.job.documents[0].state.DocReady?;
    assert NoneReady(o.job.documents);
    FailedNoneReady(o.job, "signing:sign_failed");
  }

  lemma SigningIsOrderly(j: Job, ans: SignAnswers)
    requires WellFormed(j) && j.state.Signing?
    ensures Signed(j, Sign(j, ans)).Copy() && WorkedOn(j, Signed(j, Sign(j, ans)).job)
    ensures WorkedOn(j, AfterSign(PushDevice(j, ans)).job)
  {
    SigningIsAlike(j, ans);
    SignIsOrderly(j, Sign(j, ans));
    SignIsOrderly(j, PushDevice(j, ans));
  }

  lemma FinalizeIsOrderly(cfg: Config, j: Job, taken: bool)
    requires WellFormed(j) && j.state.Finalizing?
    ensures WorkedOn(j, AfterFinalize(Finalized(cfg, j, taken)).job)
  {
    FailedNoneReady(j, "signapi:finalize_failed");
  }

  lemma WriterIsOrderly(cfg: Config, s: Sys, step: Step)
    requires Shaped(s) && (step.WorkerPublish? || step.WorkerSave?) && s.WorkOf(step.w).Copy()
    ensures Orderly(s, EffectOf(cfg, s, step))
  {
    HeldIsWellFormed(s, step.w);
    var j := s.WorkOf(step.w).job;
    if s.WorkOf(step.w).ToPublish? {
      assert !j.documents[0].state.DocReady?;
      FailedNoneReady(j, "signing:sign_failed");
    } else if s.WorkOf(step.w).ToSave? && s.WorkOf(step.w).more {
      assert !j.documents[0].state.DocReady?;
    }
  }

  lemma WorkerIsOrderly(cfg: Config, s: Sys, step: Step)
    requires Shaped(s)
      && (step.WorkerSign? || step.WorkerPush? || step.WorkerFinalize? || step.WorkerPublish? || step.WorkerSave?)
    ensures Orderly(s, EffectOf(cfg, s, step))
  {
    if s.WorkOf(step.w).Copy() {
      HeldIsWellFormed(s, step.w);
      var j := s.WorkOf(step.w).job;
      match step
      case WorkerSign(w, ans) => if s.WorkOf(w).ToSign? { SigningIsOrderly(j, ans); }
      case WorkerPush(w, ans) => if s.WorkOf(w).ToPush? { SigningIsOrderly(j, ans); }
      case WorkerFinalize(w, taken) => if s.WorkOf(w).ToFinalize? { FinalizeIsOrderly(cfg, j, taken); }
      case _ => WriterIsOrderly(cfg, s, step);
    }
  }

  lemma EffectIsOrderly(cfg: Config, s: Sys, step: Step)
    requires Shaped(s)
    ensures Orderly(s, EffectOf(cfg, s, step))
  {
    if step.Prepare? || step.Callback? || step.SubmitSignatures? {
      HandlerIsOrderly(cfg, s, step);
    } else if step.WorkerSign? || step.WorkerPush? || step.WorkerFinalize? || step.WorkerPublish? || step.WorkerSave? {
      WorkerIsOrderly(cfg, s, step);
    }
  }

  // ---- READY stays READY ----

  /** A stored READY job was dequeued, and whatever worker still holds it holds it READY. */
  ghost predicate ReadyKept(s: Sys) {
    && (forall id :: id in s.jobs && AllReady(s.jobs[id].documents) ==> Calls(s.log, DequeueKind, id) == 1)
    && (forall id, w :: id in s.jobs && AllReady(s.jobs[id].documents) && w in s.workers && s.workers[w].On(id) ==>
          s.workers[w].Copy() && AllReady(s.workers[w].job.documents))
    && (forall w :: w in s.workers && s.workers[w].Copy() && AllReady(s.workers[w].job.documents) ==>
      s.workers[w].job.state.Ready?)
  }

  ghost predicate Good(s: Sys, e: Effect) {
    Shaped(s) && Once(s) && Legal(s, e) && Sparing(s, e) && Orderly(s, e)
  }

  lemma {:induction false} DequeuedStays(s: Sys, e: Effect, id: string)
    requires Good(s, e) && Calls(s.log, DequeueKind, id) == 1
    ensures OnceFor(Effected(s, e), id) && Calls(Effected(s, e).log, DequeueKind, id) == 1
  {
    OnceForEffect(s, e, id);
    LogGrows(s, e);
    CallsConcat(s.log, Made(s, e), DequeueKind, id);
  }

  lemma {:induction false} ReadyStoredDequeued(s: Sys, e: Effect, id: string)
    requires Good(s, e) && ReadyKept(s) && id in Effected(s, e).jobs && AllReady(Effected(s, e).jobs[id].documents)
    ensures Calls(Effected(s, e).log, DequeueKind, id) == 1
  {
    StoredFrom(s, e, id);
    if e.Writes? && s.WorkOf(e.w).Copy() && s.WorkOf(e.w).job == Effected(s, e).jobs[id] {
      HeldIsWellFormed(s, e.w);
      if !(id in s.jobs && s.jobs[id] == Effected(s, e).jobs[id]) {
        assert s.workers[e.w].On(id) && OnceFor(s, id);
      }
    }
    DequeuedStays(s, e, id);
  }

  lemma ReadyHeld(s: Sys, e: Effect, id: string, w: nat)
    requires Good(s, e) && ReadyKept(s) && id in Effected(s, e).jobs && AllReady(Effected(s, e).jobs[id].documents)
    requires w in Effected(s, e).workers && Effected(s, e).workers[w].On(id)
    ensures Effected(s, e).workers[w].Copy() && AllReady(Effected(s, e).workers[w].job.documents)
  {
    if e.Writes? {
      ReadyHeldWriter(s, e, id, w);
    } else {
      StoredFrom(s, e, id);
      HeldFrom(s, e, w);
      assert OnceFor(s, id);
      if e.Takes? && w == e.w {
        assert s.queue != [] ==> s.queue[0] in s.queue;
      } else if e.Works? && w == e.w && s.WorkOf(w).Copy() {
        HeldIsWellFormed(s, w);
      }
    }
  }

  lemma ReadyHeldWriter(s: Sys, e: Effect, id: string, w: nat)
    requires Good(s, e) && ReadyKept(s) && e.Writes? && id in Effected(s, e).jobs
      && AllReady(Effected(s, e).jobs[id].documents)
    requires w in Effected(s, e).workers && Effected(s, e).workers[w].On(id)
    ensures Effected(s, e).workers[w].Copy() && AllReady(Effected(s, e).workers[w].job.documents)
  {
    WrittenJobs(s, e);
    HeldFrom(s, e, w);
    HeldIsWellFormed(s, e.w);
    assert OnceFor(s, id);
    assert s.WorkOf(e.w).On(id) ==> e.w in s.workers && s.workers[e.w].On(id);
  }

  lemma ReadyWorker(s: Sys, e: Effect, w: nat)
    requires Good(s, e) && ReadyKept(s) && w in Effected(s, e).workers && Effected(s, e).workers[w].Copy()
    requires AllReady(Effected(s, e).workers[w].job.documents)
    ensures Effected(s, e).workers[w].job.state.Ready?
  {
    HeldFrom(s, e, w);
    if e.Works? && w == e.w && s.WorkOf(w).Got? {
      StoredIsWellFormed(s, s.WorkOf(w).id);
    }
  }

  lemma ReadyKeptEffect(s: Sys, e: Effect)
    requires Good(s, e) && ReadyKept(s)
    ensures ReadyKept(Effected(s, e))
  {
    var s' := Effected(s, e);
    forall id | id in s'.jobs && AllReady(s'.jobs[id].documents) ensures Calls(s'.log, DequeueKind, id) == 1 {
      ReadyStoredDequeued(s, e, id);
    }
    forall id, w | id in s'.jobs && AllReady(s'.jobs[id].documents) && w in s'.workers && s'.workers[w].On(id)
      ensures s'.workers[w].Copy() && AllReady(s'.workers[w].job.documents) { ReadyHeld(s, e, id, w); }
    forall w | w in s'.workers && s'.workers[w].Copy() && AllReady(s'.workers[w].job.documents)
      ensures s'.workers[w].job.state.Ready? { ReadyWorker(s, e, w); }
  }

  // ---- States move along the table ----

  /** A worker's copy is ahead of the stored job, unless the stored job has failed. */
  ghost predicate Ahead(s: Sys) {
    forall w :: w in s.workers && s.workers[w].Copy() ==> AheadOf(s, s.workers[w].job)
  }

  ghost predicate AheadOf(s: Sys, j: Job) {
    j.jobId in s.jobs ==> s.jobs[j.jobId].state.Failed? || Leads(s.jobs[j.jobId].state, j.state)
  }

  /** A worker none of whose job's copies the effect touches stays where it was. */
  lemma AheadUntouched(s: Sys, s': Sys, j: Job)
    requires AheadOf(s, j)
    requires j.jobId in s'.jobs ==>
      (j.jobId in s.jobs && s'.jobs[j.jobId] == s.jobs[j.jobId]) || s'.jobs[j.jobId].state.Failed?
    ensures AheadOf(s', j)
  {
  }

  lemma AheadHandler(s: Sys, e: Effect, w: nat)
    requires Good(s, e) && Ahead(s) && (e.Creates? || e.Settles?) && w in s.workers && s.workers[w].Copy()
    ensures AheadOf(Effected(s, e), s.workers[w].job)
  {
    var j := s.workers[w].job;
    HeldIsWellFormed(s, w);
    HolderIsPast(s, w);
    if j.jobId in Effected(s, e).jobs { StoredFrom(s, e, j.jobId); }
    AheadUntouched(s, Effected(s, e), j);
  }

  lemma AheadWorks(s: Sys, e: Effect, w: nat)
    requires Good(s, e) && Ahead(s) && e.Works? && w in Effected(s, e).workers && Effected(s, e).workers[w].Copy()
    ensures AheadOf(Effected(s, e), Effected(s, e).workers[w].job)
  {
    var s' := Effected(s, e);
    assert s'.jobs == s.jobs;
    if w == e.w {
      if s.WorkOf(w).Got? { StoredIsWellFormed(s, s.WorkOf(w).id); } else { assert AheadOf(s, s.workers[w].job); }
    } else {
      assert AheadOf(s, s.workers[w].job);
    }
  }

  lemma AheadWrites(s: Sys, e: Effect, w: nat)
    requires Good(s, e) && Ahead(s) && e.Writes? && w in Effected(s, e).workers && Effected(s, e).workers[w].Copy()
    ensures AheadOf(Effected(s, e), Effected(s, e).workers[w].job)
  {
    var s', x := Effected(s, e), s.WorkOf(e.w).job;
    HeldIsWellFormed(s, e.w);
    assert AheadOf(s, x);
    assert s'.jobs == s.jobs[x.jobId := x] || s'.jobs == s.jobs;
    if w != e.w {
      var j := s.workers[w].job;
      assert OnceFor(s, j.jobId) && s.workers[w].On(j.jobId) && s.workers[e.w].On(x.jobId);
      assert x.jobId != j.jobId;
      assert AheadOf(s, j);
    }
  }

  lemma AheadOther(s: Sys, e: Effect, w: nat)
    requires Ahead(s) && !e.Creates? && !e.Settles? && !e.Works? && !e.Writes?
    requires w in Effected(s, e).workers && Effected(s, e).workers[w].Copy()
    ensures AheadOf(Effected(s, e), Effected(s, e).workers[w].job)
  {
    HeldFrom(s, e, w);
    assert AheadOf(s, s.workers[w].job);
    if Effected(s, e).workers[w].job.jobId in Effected(s, e).jobs {
      StoredFrom(s, e, Effected(s, e).workers[w].job.jobId);
    }
  }

  lemma AheadEffect(s: Sys, e: Effect)
    requires Good(s, e) && Ahead(s)
    ensures Ahead(Effected(s, e))
  {
    var s' := Effected(s, e);
    forall w | w in s'.workers && s'.workers[w].Copy() ensures AheadOf(s', s'.workers[w].job) { AheadWorker(s, e, w); }
  }

  lemma AheadWorker(s: Sys, e: Effect, w: nat)
    requires Good(s, e) && Ahead(s) && w in Effected(s, e).workers && Effected(s, e).workers[w].Copy()
    ensures AheadOf(Effected(s, e), Effected(s, e).workers[w].job)
  {
    match e
    case Works(_, _, _) => AheadWorks(s, e, w);
    case Writes(_, _, _) => AheadWrites(s, e, w);
    case Creates(_, _, _) =>
      HeldFrom(s, e, w);
      AheadHandler(s, e, w);
    case Settles(_, _, _, _, _, _) =>
      HeldFrom(s, e, w);
      AheadHandler(s, e, w);
    case _ => AheadOther(s, e, w);
  }

  ghost predicate Progressing(s: Sys) {
    ReadyKept(s) && Ahead(s)
  }

  lemma GoodStep(cfg: Config, s: Sys, step: Step)
    requires Shaped(s) && Once(s) && Fresh(s, step)
    ensures Good(s, EffectOf(cfg, s, step))
  {
    EffectIsLegal(cfg, s, step);
    EffectIsSparing(cfg, s, step);
    EffectIsOrderly(cfg, s, step);
  }

  lemma {:induction false} AlwaysProgressing(run: seq<Move>)
    requires Possible(run)
    ensures Progressing(After(run))
  {
    if run != [] {
      var (init, m) := (run[..|run| - 1], run[|run| - 1]);
      var s := After(init);
      var e := EffectOf(m.cfg, s, m.step);
      PossiblePrefix(run);
      AlwaysProgressing(init);
      AlwaysShaped(init);
      AlwaysOnce(init);
      GoodStep(m.cfg, s, m.step);
      ReadyKeptEffect(s, e);
      AheadEffect(s, e);
    }
  }

  // ---- What holds of every stored job ----

  /**
   Documents are READY all together or not at all, a READY one keeps no signature value, a READY
   job has READY documents, PREPARING is never stored, and a client-side job never waits for an
   authorization or a remote signature.
   */
  lemma {:induction false} DocumentsReadyTogether(run: seq<Move>, id: string)
    requires id in After(run).jobs
    ensures
      var j := After(run).jobs[id];
      && (NoneReady(j.documents) || AllReady(j.documents))
      && (j.state.Ready? ==> AllReady(j.documents))
      && !j.state.Preparing?
      && (j.flow.IsClientSide() ==> !j.state.AwaitingAuthorization? && !j.state.Signing?)
      && (!j.flow.IsClientSide() ==> !j.state.AwaitingClientSignature?)
  {
    AlwaysShaped(run);
    StoredIsWellFormed(After(run), id);
  }

  /** The job was READY: no copy of it from before is left anywhere. */
  ghost predicate Settled(s: Sys, id: string) {
    && Calls(s.log, DequeueKind, id) == 1
    && (id in s.jobs ==> AllReady(s.jobs[id].documents))
    && (forall w :: w in s.workers && s.workers[w].On(id) ==>
          s.workers[w].Copy() && AllReady(s.workers[w].job.documents) && s.workers[w].job.state.Ready?)
  }

  lemma SettledStored(s: Sys, e: Effect, id: string)
    requires Good(s, e) && Settled(s, id) && id in Effected(s, e).jobs
    ensures AllReady(Effected(s, e).jobs[id].documents)
  {
    StoredFrom(s, e, id);
    if e.Creates? && e.job.jobId == id { UnusedIsUncalled(s, id); }
    if e.Writes? && s.WorkOf(e.w).Copy() && s.WorkOf(e.w).job == Effected(s, e).jobs[id] {
      if s.WorkOf(e.w).job.jobId == id { assert s.workers[e.w].On(id); }
    }
  }

  lemma SettledHeld(s: Sys, e: Effect, id: string, w: nat)
    requires Good(s, e) && Settled(s, id) && w in Effected(s, e).workers && Effected(s, e).workers[w].On(id)
    ensures w in s.workers && s.workers[w] == Effected(s, e).workers[w]
  {
    HeldFrom(s, e, w);
    assert OnceFor(s, id);
    if e.Takes? && w == e.w {
      assert s.queue != [] ==> s.queue[0] in s.queue;
    } else if (e.Works? || e.Writes?) && w == e.w {
      if s.workers[w].Copy() {
        assert s.workers[w].On(s.workers[w].job.jobId);
      } else {
        assert s.workers[w].Got?;
        StoredIsWellFormed(s, s.workers[w].id);
      }
    }
  }

  lemma SettledEffect(s: Sys, e: Effect, id: string)
    requires Good(s, e) && Settled(s, id)
    ensures Settled(Effected(s, e), id)
  {
    var s' := Effected(s, e);
    DequeuedStays(s, e, id);
    if id in s'.jobs { SettledStored(s, e, id); }
    forall w | w in s'.workers && s'.workers[w].On(id)
      ensures s'.workers[w].Copy() && AllReady(s'.workers[w].job.documents) && s'.workers[w].job.state.Ready?
    {
      SettledHeld(s, e, id, w);
    }
  }

  lemma {:induction false} ReadySettles(run: seq<Move>, k: nat, id: string)
    requires Possible(run) && k <= |run| && id in After(run[..k]).jobs && AllReady(After(run[..k]).jobs[id].documents)
    ensures Settled(After(run), id)
  {
    AlwaysProgressing(run);
    if k == |run| {
      assert run[..k] == run;
      assert forall w :: w in After(run).workers && After(run).workers[w].On(id) ==> After(run).workers[w].Copy();
    } else {
      var (init, m) := (run[..|run| - 1], run[|run| - 1]);
      PossiblePrefix(run);
      assert init[..k] == run[..k];
      ReadySettles(init, k, id);
      AlwaysShaped(init);
      AlwaysOnce(init);
      GoodStep(m.cfg, After(init), m.step);
      SettledEffect(After(init), EffectOf(m.cfg, After(init), m.step), id);
    }
  }

  /** Once a job's documents are READY in the store they are READY whenever they are in the store again. */
  lemma {:induction false} ReadyStaysReady(run: seq<Move>, k: nat, id: string)
    requires Possible(run) && k <= |run| && id in After(run[..k]).jobs && AllReady(After(run[..k]).jobs[id].documents)
    ensures id in After(run).jobs ==> AllReady(After(run).jobs[id].documents)
  {
    ReadySettles(run, k, id);
  }

  // ---- How the stored state moves ----

  /** The step writes the copy a worker holds of the job. */
  predicate Overwrites(s: Sys, step: Step, id: string) {
    && (step.WorkerSave? || step.WorkerPublish?)
    && (if step.WorkerSave? then s.WorkOf(step.w).ToSave? else s.WorkOf(step.w).ToPublish?)
    && step.save.Written()
    && s.WorkOf(step.w).job.jobId == id
  }

  /**
   Every step leaves a stored job where it is, moves it along the transition table, or fails it;
   the one exception is a worker overwriting FAILED with the copy it still holds.
   */
  lemma {:induction false} StoredStateMoves(run: seq<Move>, cfg: Config, step: Step, id: string)
    requires Possible(run) && Fresh(After(run), step) && id in After(run).jobs && id in Next(cfg, After(run), step).jobs
    ensures
      var (s, s') := (After(run), Next(cfg, After(run), step));
      || Leads(s.jobs[id].state, s'.jobs[id].state)
      || s'.jobs[id].state.Failed?
      || (s.jobs[id].state.Failed? && Overwrites(s, step, id))
  {
    AlwaysProgressing(run);
    AlwaysShaped(run);
    AlwaysOnce(run);
    GoodStep(cfg, After(run), step);
    EffectMoves(After(run), EffectOf(cfg, After(run), step), id);
    WritesOverwrite(cfg, After(run), step, id);
  }

  /** The effect is a worker's written Save of its copy of the job. */
  ghost predicate Rewrites(s: Sys, e: Effect, id: string) {
    e.Writes? && e.save.Written() && s.WorkOf(e.w).Copy() && s.WorkOf(e.w).job.jobId == id
  }

  lemma EffectMoves(s: Sys, e: Effect, id: string)
    requires Good(s, e) && Ahead(s) && id in s.jobs && id in Effected(s, e).jobs
    ensures
      var s' := Effected(s, e);
      || Leads(s.jobs[id].state, s'.jobs[id].state)
      || s'.jobs[id].state.Failed?
      || (s.jobs[id].state.Failed? && Rewrites(s, e, id))
  {
    StoredIsWellFormed(s, id);
    match e
    case Writes(_, _, _) =>
      WrittenJobs(s, e);
      assert AheadOf(s, s.workers[e.w].job);
    case _ => StoredFrom(s, e, id);
  }

  lemma WritesOverwrite(cfg: Config, s: Sys, step: Step, id: string)
    ensures Rewrites(s, EffectOf(cfg, s, step), id) ==> Overwrites(s, step, id)
  {
  }

  /** FAILED is left exactly when a worker writes a copy it holds of the job that has not failed. */
  lemma {:induction false} FailedIsLeftIff(run: seq<Move>, cfg: Config, step: Step, id: string)
    requires Possible(run) && Fresh(After(run), step) && id in After(run).jobs && After(run).jobs[id].state.Failed?
    ensures
      var (s, s') := (After(run), Next(cfg, After(run), step));
      id in s'.jobs && !s'.jobs[id].state.Failed? <==> Overwrites(s, step, id) && !s.WorkOf(step.w).job.state.Failed?
  {
    AlwaysShaped(run);
    AlwaysOnce(run);
    if step.WorkerSave? || step.WorkerPublish? {
      OverwriteIsExact(cfg, After(run), step, id);
    } else {
      FailedIsKept(cfg, After(run), step, id);
    }
  }

  /** No step but a worker's Save takes a stored job out of FAILED. */
  lemma FailedIsKept(cfg: Config, s: Sys, step: Step, id: string)
    requires Shaped(s) && Once(s) && Fresh(s, step) && !step.WorkerSave? && !step.WorkerPublish?
    requires id in s.jobs && s.jobs[id].state.Failed?
    ensures id in Next(cfg, s, step).jobs ==> Next(cfg, s, step).jobs[id].state.Failed?
  {
    var e := EffectOf(cfg, s, step);
    GoodStep(cfg, s, step);
    NoWrites(cfg, s, step);
    StoredIsWellFormed(s, id);
    if id in Effected(s, e).jobs { StoredFrom(s, e, id); }
  }

  lemma NoWrites(cfg: Config, s: Sys, step: Step)
    requires !step.WorkerSave? && !step.WorkerPublish?
    ensures !EffectOf(cfg, s, step).Writes?
  {
  }

  /** A worker's Save writes what the worker holds, and touches no other job. */
  lemma OverwriteIsExact(cfg: Config, s: Sys, step: Step, id: string)
    requires (step.WorkerSave? || step.WorkerPublish?) && id in s.jobs && s.jobs[id].state.Failed?
    ensures
      var s' := Next(cfg, s, step);
      id in s'.jobs && !s'.jobs[id].state.Failed? <==> Overwrites(s, step, id) && !s.WorkOf(step.w).job.state.Failed?
  {
    var e := EffectOf(cfg, s, step);
    if e.Writes? { WrittenJobs(s, e); }
  }

  /** No callback arrives for a job while a worker holds a copy of it. */
  ghost predicate Undisturbed(run: seq<Move>) {
    forall k :: 0 <= k < |run| ==> Leaves(After(run[..k]), run[k].step)
  }

  ghost predicate Leaves(s: Sys, step: Step) {
    step.Callback? && step.state in s.index ==>
      forall w :: w in s.workers && s.workers[w].Copy() ==> s.workers[w].job.jobId != s.index[step.state]
  }

  ghost predicate FailedIsHeldFailed(s: Sys) {
    forall w :: w in s.workers && s.workers[w].Copy() ==>
      var j := s.workers[w].job;
      j.jobId in s.jobs && s.jobs[j.jobId].state.Failed? ==> j.state.Failed?
  }

  lemma FailedIsHeldFailedEffect(s: Sys, e: Effect, w: nat)
    requires Good(s, e) && FailedIsHeldFailed(s)
    requires e.Settles? ==>
      forall v :: v in s.workers && s.workers[v].Copy() ==> s.workers[v].job.jobId != e.before.jobId
    requires w in Effected(s, e).workers && Effected(s, e).workers[w].Copy()
    requires Effected(s, e).workers[w].job.jobId in Effected(s, e).jobs
    requires Effected(s, e).jobs[Effected(s, e).workers[w].job.jobId].state.Failed?
    ensures Effected(s, e).workers[w].job.state.Failed?
  {
    var id := Effected(s, e).workers[w].job.jobId;
    HeldFrom(s, e, w);
    StoredFrom(s, e, id);
    assert OnceFor(s, id);
    match e
    case Creates(_, _, _) => HeldIsWellFormed(s, w);
    case Works(_, _, _) =>
      if w == e.w {
        if s.workers[w].Got? { StoredIsWellFormed(s, s.workers[w].id); }
      }
    case Writes(_, _, _) =>
      if w != e.w { HoldersDiffer(s, w, e.w); }
    case _ =>
  }

  lemma HoldersDiffer(s: Sys, v: nat, w: nat)
    requires Once(s) && v != w && v in s.workers && w in s.workers && s.workers[v].Copy() && s.workers[w].Copy()
    ensures s.workers[v].job.jobId != s.workers[w].job.jobId
  {
    assert OnceFor(s, s.workers[v].job.jobId);
    assert s.workers[v].On(s.workers[v].job.jobId) && s.workers[w].On(s.workers[w].job.jobId);
  }

  lemma {:induction false} UndisturbedHolds(run: seq<Move>)
    requires Possible(run) && Undisturbed(run)
    ensures FailedIsHeldFailed(After(run))
  {
    if run != [] {
      var (init, m) := (run[..|run| - 1], run[|run| - 1]);
      var s := After(init);
      var e := EffectOf(m.cfg, s, m.step);
      PossiblePrefix(run);
      assert forall k :: 0 <= k < |init| ==> init[..k] == run[..k] && init[k] == run[k];
      UndisturbedHolds(init);
      AlwaysShaped(init);
      AlwaysOnce(init);
      GoodStep(m.cfg, s, m.step);
      SettlesUnheld(m.cfg, s, m.step);
      forall w | w in Effected(s, e).workers && Effected(s, e).workers[w].Copy()
        && Effected(s, e).workers[w].job.jobId in Effected(s, e).jobs
        && Effected(s, e).jobs[Effected(s, e).workers[w].job.jobId].state.Failed?
        ensures Effected(s, e).workers[w].job.state.Failed? { FailedIsHeldFailedEffect(s, e, w); }
    }
  }

  lemma SettlesUnheld(cfg: Config, s: Sys, step: Step)
    requires Shaped(s) && Once(s) && Leaves(s, step)
    ensures
      var e := EffectOf(cfg, s, step);
      e.Settles? ==> forall v :: v in s.workers && s.workers[v].Copy() ==> s.workers[v].job.jobId != e.before.jobId
  {
    var e := EffectOf(cfg, s, step);
    if e.Settles? {
      StoredIsWellFormed(s, if step.Callback? then s.index[step.state] else step.id);
      forall v | v in s.workers && s.workers[v].Copy()
        ensures s.workers[v].job.jobId != e.before.jobId { HolderIsPast(s, v); }
    }
  }

  /** FAILED is final in every run in which no callback arrives for a job a worker is holding. */
  lemma {:induction false} FailedIsAbsorbing(run: seq<Move>, cfg: Config, step: Step, id: string)
    requires Possible(run) && Undisturbed(run) && Fresh(After(run), step) && id in After(run).jobs
    requires After(run).jobs[id].state.Failed?
    ensures id in Next(cfg, After(run), step).jobs ==> Next(cfg, After(run), step).jobs[id].state.Failed?
  {
    FailedIsLeftIff(run, cfg, step, id);
    UndisturbedHolds(run);
  }

  /** READY is final for a client-side job: no callback resolves to it, and no worker holds an older copy. */
  lemma {:induction false} ClientReadyIsAbsorbing(run: seq<Move>, cfg: Config, step: Step, id: string)
    requires Possible(run) && Fresh(After(run), step) && id in After(run).jobs
    requires After(run).jobs[id].flow.IsClientSide() && After(run).jobs[id].state.Ready?
    ensures id in Next(cfg, After(run), step).jobs ==> Next(cfg, After(run), step).jobs[id].state.Ready?
  {
    AlwaysProgressing(run);
    AlwaysShaped(run);
    AlwaysOnce(run);
    AlwaysOwned(run);
    ClientUnsettled(cfg, After(run), step, id);
    GoodStep(cfg, After(run), step);
    ClientReadyIsKept(After(run), EffectOf(cfg, After(run), step), id);
  }

  /** No handler acts on a client-side job that is READY. */
  lemma ClientUnsettled(cfg: Config, s: Sys, step: Step, id: string)
    requires Shaped(s) && Owned(s) && id in s.jobs && s.jobs[id].flow.IsClientSide() && s.jobs[id].state.Ready?
    ensures var e := EffectOf(cfg, s, step); e.Settles? ==> e.before.jobId != id
  {
    StoredIsWellFormed(s, id);
    if step.Callback? && step.state in s.index && s.index[step.state] in s.jobs {
      StoredIsWellFormed(s, s.index[step.state]);
    }
  }

  /** The callback resolves to the stored job. */
  predicate Resolves(s: Sys, step: Step, id: string) {
    step.Callback? && step.state in s.index && s.index[step.state] == id && id in s.jobs
  }

  /** READY is left exactly when a callback resolves to the job and what it saves is written; the job is then FAILED. */
  lemma {:induction false} ReadyIsLeftIff(run: seq<Move>, cfg: Config, step: Step, id: string)
    requires Possible(run) && Fresh(After(run), step) && id in After(run).jobs && After(run).jobs[id].state.Ready?
    ensures
      var (s, s') := (After(run), Next(cfg, After(run), step));
      && (id in s'.jobs && !s'.jobs[id].state.Ready? <==> Resolves(s, step, id) && step.save.Written())
      && (id in s'.jobs ==> s'.jobs[id].state.Terminal())
  {
    AlwaysProgressing(run);
    AlwaysShaped(run);
    AlwaysOnce(run);
    if Resolves(After(run), step, id) {
      ReadyIsCalledBack(cfg, After(run), step, id);
    } else {
      ReadyIsSpared(cfg, After(run), step, id);
      GoodStep(cfg, After(run), step);
      ClientReadyIsKept(After(run), EffectOf(cfg, After(run), step), id);
    }
  }

  lemma ReadyIsCalledBack(cfg: Config, s: Sys, step: Step, id: string)
    requires Shaped(s) && Resolves(s, step, id) && s.jobs[id].state.Ready?
    ensures
      var s' := Next(cfg, s, step);
      id in s'.jobs && s'.jobs[id].state == if step.save.Written() then Failed else State.Ready
  {
    StoredIsWellFormed(s, id);
    CalledBackMovesOn(s.jobs[id], step.declined, step.ans);
    CalledBackIsWellFormed(s.jobs[id], step.declined, step.ans);
    SettledJobs(s, EffectOf(cfg, s, step));
  }

  lemma ReadyIsSpared(cfg: Config, s: Sys, step: Step, id: string)
    requires Shaped(s) && !Resolves(s, step, id) && id in s.jobs && s.jobs[id].state.Ready?
    ensures var e := EffectOf(cfg, s, step); e.Settles? ==> e.before.jobId != id
  {
    if step.Callback? && step.state in s.index && s.index[step.state] in s.jobs {
      StoredIsWellFormed(s, s.index[step.state]);
    }
    if step.SubmitSignatures? && step.id in s.jobs { StoredIsWellFormed(s, step.id); }
  }

  lemma ClientReadyIsKept(s: Sys, e: Effect, id: string)
    requires Good(s, e) && ReadyKept(s) && id in s.jobs && s.jobs[id].state.Ready?
      && (e.Settles? ==> e.before.jobId != id)
    ensures id in Effected(s, e).jobs ==> Effected(s, e).jobs[id].state.Ready?
  {
    StoredIsWellFormed(s, id);
    if id in Effected(s, e).jobs {
      StoredFrom(s, e, id);
      if e.Writes? && s.WorkOf(e.w).job.jobId == id { assert s.workers[e.w].On(id); }
    }
  }

  // ---- FAILED is not final otherwise ----

  const ANSWERS := Answers([Uploaded("s")], Some(Token("t", "")), None, None,
                           Some(DigestAnswer([SessionDigest("s", "d")], "sum", "sha256", "ecdsa")),
                           Some("x"), None, true, None)
  const INPUT := PrepareInput(EparakstsMobile, "cert", "auth", "identity", [InputDocument("doc", Xades, Create, "")])
  const CONFIG := Config("", FlowSet(false, {}), false, false)

  /** A mobile job whose person is sent to the consent page with its identity already known. */
  lemma OneConsent()
    ensures Admitted(CONFIG, INPUT)
    ensures
      var j := Prepared("j", INPUT, ANSWERS).job;
      && j.jobId == "j" && j.flow.EparakstsMobile? && j.state.AwaitingAuthorization? && j.pendingLeg.SignLeg?
        && j.oauthState == "x"
      && |j.documents| == 1 && j.authCert == "auth"
  {
    var c := CreateSessions(NewJob("j", INPUT), ANSWERS.sessions);
    assert UploadedCount(ANSWERS.sessions, 1) == 1;
    var j1 := c.job.(signIdentityId := "identity", signingCert := "cert", authCert := "auth");
    assert c.ok && c.job.documents[0].sessionId == "s";
    var a := ANSWERS.digests.value;
    assert LastFor(a.sessions, "s") == Some("d");
    assert Covered(j1.documents, a.sessions) == 1 + Covered(j1.documents[1..], a.sessions) == 1;
    BeginConsentIsAlike(j1, ANSWERS.digests, ANSWERS.state);
    CalculatedIsAlike(j1, "cert", ANSWERS.digests);
  }

  /** A store that holds the one job, with one queue and at most one worker. */
  ghost predicate Holds(s: Sys, j: Job, queue: seq<string>, work: Work) {
    && "j" in s.jobs && s.jobs["j"] == j && j.jobId == "j" && j.flow.EparakstsMobile?
    && j.oauthState == "x" && "x" in s.index && s.index["x"] == "j"
    && s.queue == queue && s.WorkOf(0) == work
  }

  lemma CalledBackOnce(s: Sys, j: Job, ans: Answers) returns (j': Job)
    requires Holds(s, j, [], Idle) && j.pendingLeg.SignLeg? && j.state.AwaitingAuthorization? && ans.token.Some?
    ensures Holds(Next(CONFIG, s, Callback("x", false, ans, true, Saved, true)), j', ["j"], Idle)
    ensures j'.pendingLeg.NoLeg? && j'.state.Signing? && |j'.documents| == |j.documents| && j'.authCert == j.authCert
  {
    j' := CalledBack(j, false, ans).job;
  }

  /** The second callback is refused, and fails the job the worker is signing. */
  lemma CalledBackAgain(s: Sys, j: Job, ans: Answers, work: Work) returns (j': Job)
    requires Holds(s, j, [], work) && j.pendingLeg.NoLeg?
    ensures Holds(Next(CONFIG, s, Callback("x", false, ans, true, Saved, true)), j', [], work) && j'.state.Failed?
  {
    j' := CalledBack(j, false, ans).job;
  }

  lemma Picked(s: Sys, j: Job)
    requires Holds(s, j, ["j"], Idle)
    ensures Holds(Next(CONFIG, s, WorkerDequeue(0, false)), j, [], Got("j"))
  {
  }

  lemma Loaded(s: Sys, j: Job)
    requires Holds(s, j, [], Got("j")) && j.state.Signing?
    ensures Holds(Next(CONFIG, s, WorkerLoad(0, true)), j, [], ToSign(j))
  {
  }

  lemma SignedByOne(s: Sys, j: Job, held: Job, ans: SignAnswers) returns (signed: Job)
    requires Holds(s, j, [], ToSign(held)) && held.flow.EparakstsMobile? && held.state.Signing? && held.jobId == "j"
    requires ans.raw.Some? && |ans.raw.value| == |held.documents|
    ensures Holds(Next(CONFIG, s, WorkerSign(0, ans)), j, [], ToSave(signed, true)) && signed.state.Finalizing?
      && signed.jobId == "j"
  {
    signed := AfterSign(SignServer(held, ans)).job;
  }

  lemma {:induction false} Extends(run: seq<Move>, step: Step) returns (run': seq<Move>)
    requires Possible(run) && Fresh(After(run), step)
    ensures Possible(run') && After(run') == Next(CONFIG, After(run), step)
  {
    run' := run + [Move(CONFIG, step)];
    Extended(run, CONFIG, step);
  }

  lemma OneConsented() returns (run: seq<Move>, j: Job)
    ensures Possible(run) && Holds(After(run), j, [], Idle) && j.pendingLeg.SignLeg? && j.state.AwaitingAuthorization?
    ensures |j.documents| == 1 && j.authCert == "auth"
  {
    OneConsent();
    j := Prepared("j", INPUT, ANSWERS).job;
    run := Extends([], Prepare("j", INPUT, ANSWERS, Saved));
  }

  lemma OneSigning() returns (run: seq<Move>, j: Job)
    ensures Possible(run) && Holds(After(run), j, [], ToSign(j)) && j.pendingLeg.NoLeg? && j.state.Signing?
    ensures |j.documents| == 1 && j.authCert == "auth"
  {
    var run1, j1 := OneConsented();
    j := CalledBackOnce(After(run1), j1, ANSWERS.(state := None));
    var run2 := Extends(run1, Callback("x", false, ANSWERS.(state := None), true, Saved, true));
    Picked(After(run2), j);
    var run3 := Extends(run2, WorkerDequeue(0, false));
    Loaded(After(run3), j);
    run := Extends(run3, WorkerLoad(0, true));
  }

  lemma OneFailed() returns (run: seq<Move>, failed: Job, held: Job)
    ensures Possible(run) && Holds(After(run), failed, [], ToSave(held, true)) && failed.state.Failed?
    ensures held.state.Finalizing? && held.jobId == "j"
  {
    var run1, j := OneSigning();
    failed := CalledBackAgain(After(run1), j, ANSWERS.(state := None), ToSign(j));
    var run2 := Extends(run1, Callback("x", false, ANSWERS.(state := None), true, Saved, true));
    var ans := SignAnswers(true, None, [], Some(["v"]), None, None);
    held := SignedByOne(After(run2), failed, j, ans);
    run := Extends(run2, WorkerSign(0, ans));
  }

  /**
   A run in which FAILED is left: the person's browser repeats the last callback while a worker
   is signing, the job is failed, and the worker's save puts it back to FINALIZING.
   */
  lemma FailedCanBeLeft() returns (run: seq<Move>, step: Step)
    ensures Possible(run) && Fresh(After(run), step)
    ensures "j" in After(run).jobs && After(run).jobs["j"].state.Failed?
    ensures
      var s' := Next(CONFIG, After(run), step);
      "j" in s'.jobs && s'.jobs["j"].state.Finalizing?
  {
    var failed, held;
    run, failed, held := OneFailed();
    step := WorkerSave(0, Saved);
    HeldIsSaved(After(run), failed, held);
  }

  lemma HeldIsSaved(s: Sys, stored: Job, held: Job)
    requires Holds(s, stored, [], ToSave(held, true)) && held.jobId == "j"
    ensures
      var s' := Next(CONFIG, s, WorkerSave(0, Saved));
      "j" in s'.jobs && s'.jobs["j"] == held
  {
  }

  // ---- READY is not final for a remote job ----

  const SIGNATURE: seq<Byte> := [0x30, 0x06, 0x02, 0x01, 0x01, 0x02, 0x01, 0x01]

  lemma SignatureNormalizes()
    ensures Ecdsa.NormalizeText(Base64.Encode(SIGNATURE)).Some?
  {
    assert ToBytes(1) == ToBytes(0) + [1];
    assert Der.IntegerContent(1) == [1];
    assert Der.Tlv(Der.INTEGER_TAG, [1]) == [2, 1, 1];
    assert Der.Body(1, 1, []) == [2, 1, 1, 2, 1, 1];
    assert SIGNATURE == Der.Tlv(Der.SEQUENCE_TAG, Der.Body(1, 1, []));
    Ecdsa.ShapeAsDer(1, 1, []);
    Ecdsa.NormalizeEncoded(SIGNATURE);
  }

  /** The job once its one document carries the signature, and once it is finalized. */
  lemma OneIsFinalized(j: Job)
    requires |j.documents| == 1 && j.state.Finalizing? && j.authCert == "auth"
    requires j.documents[0].signatureValue == Base64.Encode(SIGNATURE)
    ensures
      var o := Finalized(CONFIG, j, true);
      o.ok && o.job == j.(documents := ReadyDocuments(j.documents), state := State.Ready)
  {
    OneEntry(j.documents);
    assert TrimLeft("auth") == "auth" && TrimRight("auth") == "auth";
    OneIsAccepted(j);
  }

  lemma {:induction false} OneEntry(ds: seq<Document>)
    requires |ds| == 1 && ds[0].signatureValue == Base64.Encode(SIGNATURE)
    ensures Entries(ds).Some?
  {
    SignatureNormalizes();
    assert ds[1..] == [] && Entries([]) == Some([]);
  }

  lemma OneIsAccepted(j: Job)
    requires j.state.Finalizing? && Entries(j.documents).Some? && CertificateFor(CONFIG, j.flow, j.authCert).Available()
    ensures
      var o := Finalized(CONFIG, j, true);
      o.ok && o.job == j.(documents := ReadyDocuments(j.documents), state := State.Ready)
  {
  }

  lemma SignedWith(s: Sys, j: Job) returns (signed: Job)
    requires Holds(s, j, [], ToSign(j)) && j.state.Signing? && |j.documents| == 1
    ensures
      var ans := SignAnswers(true, None, [], Some([Base64.Encode(SIGNATURE)]), None, None);
      Holds(Next(CONFIG, s, WorkerSign(0, ans)), j, [], ToSave(signed, true))
    ensures signed == j.(state := Finalizing, documents := signed.documents) && |signed.documents| == 1
    ensures signed.documents[0].signatureValue == Base64.Encode(SIGNATURE)
  {
    var ans := SignAnswers(true, None, [], Some([Base64.Encode(SIGNATURE)]), None, None);
    signed := AfterSign(SignServer(j, ans)).job;
  }

  lemma SavedByWorker(s: Sys, j: Job, held: Job, more: bool)
    requires Holds(s, j, [], ToSave(held, more)) && held.jobId == "j" && held.flow == j.flow && held.oauthState == "x"
    ensures Holds(Next(CONFIG, s, WorkerSave(0, Saved)), held, [], if more then ToFinalize(held) else Idle)
  {
  }

  lemma FinalizedByWorker(s: Sys, j: Job) returns (ready: Job)
    requires Holds(s, j, [], ToFinalize(j)) && |j.documents| == 1 && j.state.Finalizing? && j.authCert == "auth"
    requires j.documents[0].signatureValue == Base64.Encode(SIGNATURE)
    ensures Holds(Next(CONFIG, s, WorkerFinalize(0, true)), j, [], ToSave(ready, false))
    ensures ready == j.(documents := ReadyDocuments(j.documents), state := State.Ready)
  {
    OneIsFinalized(j);
    ready := Finalized(CONFIG, j, true).job;
    FinalizeEffect(CONFIG, s, WorkerFinalize(0, true), Finalized(CONFIG, j, true));
    Finished(s, j, Finalized(CONFIG, j, true));
  }

  lemma Finished(s: Sys, j: Job, o: Outcome)
    requires Holds(s, j, [], ToFinalize(j)) && o.ok
    ensures Holds(Effected(s, Works(0, o.events, AfterFinalize(o))), j, [], ToSave(o.job, false))
  {
  }

  lemma OneFinalizing() returns (run: seq<Move>, j: Job)
    ensures Possible(run) && Holds(After(run), j, [], ToFinalize(j)) && j.pendingLeg.NoLeg? && j.state.Finalizing?
    ensures |j.documents| == 1 && j.authCert == "auth" && j.documents[0].signatureValue == Base64.Encode(SIGNATURE)
  {
    var run1, j1 := OneSigning();
    j := SignedWith(After(run1), j1);
    var run2 := Extends(run1, WorkerSign(0, SignAnswers(true, None, [], Some([Base64.Encode(SIGNATURE)]), None, None)));
    SavedByWorker(After(run2), j1, j, true);
    run := Extends(run2, WorkerSave(0, Saved));
  }

  lemma OneReady() returns (run: seq<Move>, j: Job)
    ensures Possible(run) && Holds(After(run), j, [], Idle) && j.pendingLeg.NoLeg? && j.state.Ready?
      && AllReady(j.documents)
  {
    var run1, j1 := OneFinalizing();
    j := FinalizedByWorker(After(run1), j1);
    var run2 := Extends(run1, WorkerFinalize(0, true));
    SavedByWorker(After(run2), j1, j, false);
    run := Extends(run2, WorkerSave(0, Saved));
  }

  /**
   A run in which READY is left: the job is signed and finalized, and then the person's browser
   repeats the last callback. The job is FAILED, and its documents stay READY.
   */
  lemma ReadyCanBeLeft() returns (run: seq<Move>, step: Step)
    ensures Possible(run) && Fresh(After(run), step)
    ensures "j" in After(run).jobs && After(run).jobs["j"].state.Ready? && AllReady(After(run).jobs["j"].documents)
    ensures
      var s' := Next(CONFIG, After(run), step);
      "j" in s'.jobs && s'.jobs["j"].state.Failed? && AllReady(s'.jobs["j"].documents)
  {
    var j;
    run, j := OneReady();
    step := Callback("x", false, ANSWERS.(state := None), true, Saved, true);
    ReadyThenFailed(After(run), j);
  }

  lemma ReadyThenFailed(s: Sys, j: Job)
    requires Holds(s, j, [], Idle) && j.pendingLeg.NoLeg? && AllReady(j.documents)
    ensures
      var s' := Next(CONFIG, s, Callback("x", false, ANSWERS.(state := None), true, Saved, true));
      "j" in s'.jobs && s'.jobs["j"].state.Failed? && AllReady(s'.jobs["j"].documents)
  {
    var a := CalledBack(j, false, ANSWERS.(state := None));
    assert a.job == FailedWith(j, "signing:callback_failed");
    SettledJobs(s, EffectOf(CONFIG, s, Callback("x", false, ANSWERS.(state := None), true, Saved, true)));
  }
}
