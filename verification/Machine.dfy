/**
 The service as a state machine: the Redis store (job/store.go), the handlers, and any number
 of background workers (signing/worker.go). A handler is one atomic step; a worker's RunJob is
 not: it stops between any two of its calls, where other steps may happen and where it may
 crash. Every Redis write may be lost, or take effect without being acknowledged.
 */
module Machine {
  import opened Wrappers
  import opened Jobs
  import opened Upstream
  import opened AuthCert
  import opened Flows

  /** How one Save went: in full, not at all, without its index entry, or in full but reported as failed. */
  datatype Save = Saved | Unwritten | Unindexed | Unacknowledged
  {
    predicate Written() { !Unwritten? }
    predicate Indexed() { Saved? || Unacknowledged? }
  }

  /** Where a worker stands in RunJob, with the copy of the job it holds. */
  datatype Work =
    | Idle
    | Got(id: string)               // dequeued, about to load
    | ToSign(job: Job)              // about to call the flow's Sign
    | ToPublish(job: Job)           // eidScan: the code is on the job, about to save it
    | ToPush(job: Job)              // eidScan: the code is saved, about to push
    | ToSave(job: Job, more: bool)  // about to save; finalize follows if more
    | ToFinalize(job: Job)          // about to finalize
  {
    predicate Copy() { !Idle? && !Got? }
    predicate On(x: string) { if Got? then id == x else Copy() && job.jobId == x }
  }

  datatype Sys = Sys(
    jobs: map<string, Job>,        // job:{jobId}
    index: map<string, string>,    // state:{oauthState} -> jobId
    queue: seq<string>,            // signer:work, oldest first
    workers: map<nat, Work>,
    log: seq<Event>,
    used: set<string>,             // every job id ever created
    minted: map<string, string>,   // every OAuth state ever put on a job, and that job's id
    retired: set<string>)          // the states whose job has moved on to another
  {
    function WorkOf(w: nat): Work { if w in workers then workers[w] else Idle }
  }

  const INITIAL := Sys(map[], map[], [], map[], [], {}, map[], {})

  datatype Step =
    | Prepare(id: string, input: PrepareInput, ans: Answers, save: Save)
    | Callback(state: string, declined: bool, ans: Answers, cleared: bool, save: Save, pushed: bool)
    | SubmitSignatures(id: string, sigs: seq<Submitted>, save: Save, pushed: bool)
    | DeleteJob(id: string, unindexed: bool, deleted: bool)
    | ArchiveJobDocument(id: string, documentId: string)
    | WorkerDequeue(w: nat, lost: bool)
    | WorkerLoad(w: nat, loaded: bool)
    | WorkerSign(w: nat, answers: SignAnswers)
    | WorkerPublish(w: nat, save: Save)
    | WorkerPush(w: nat, answers: SignAnswers)
    | WorkerSave(w: nat, save: Save)
    | WorkerFinalize(w: nat, taken: bool)
    | WorkerCrash(w: nat)

  // ---- What a step does to the store, the workers and the log ----

  /** The effect of one step, once the provider has answered. */
  datatype Effect =
    | NoEffect
    | Creates(job: Job, events: seq<Event>, save: Save)
    | Settles(before: Job, after: Job, events: seq<Event>, cleared: Option<string>, save: Save, enqueued: bool)
    | Deletes(id: string, unindexed: bool, deleted: bool)
    | Records(id: string, events: seq<Event>)
    | Takes(w: nat, lost: bool)
    | Works(w: nat, events: seq<Event>, work: Work)
    | Writes(w: nat, save: Save, work: Work)

  /** Save: the job, then its state index. */
  function Saving(s: Sys, j: Job, save: Save): Sys {
    s.(jobs := if save.Written() then s.jobs[j.jobId := j] else s.jobs,
       index := if save.Indexed() && j.oauthState != "" then s.index[j.oauthState := j.jobId] else s.index)
  }

  function Enqueuing(s: Sys, j: Job): Sys {
    s.(queue := s.queue + [j.jobId], log := s.log + [Enqueue(j)])
  }

  /** The state a handler put on the job is minted; the one it replaced is retired. */
  function Minting(s: Sys, was: string, j: Job): Sys {
    if j.oauthState == was then s
    else s.(minted := s.minted[j.oauthState := j.jobId], retired := if was == "" then s.retired else s.retired + {was})
  }

  function Logging(s: Sys, events: seq<Event>): Sys {
    s.(log := s.log + events)
  }

  function At(s: Sys, w: nat, work: Work): Sys {
    s.(workers := s.workers[w := work])
  }

  /** The callback's state is cleared, the job it made is saved, and enqueued when it is ready for a worker. */
  function Settling(s: Sys, e: Effect): Sys
    requires e.Settles?
  {
    var s1 := if e.cleared.Some? then s.(index := s.index - {e.cleared.value}) else s;
    var s2 := Saving(Minting(Logging(s1, e.events), e.before.oauthState, e.after), e.after, e.save);
    if e.enqueued then Enqueuing(s2, e.after) else s2
  }

  function Deleting(s: Sys, id: string, unindexed: bool, deleted: bool): Sys {
    if id !in s.jobs then s
    else
      s.(index := if unindexed && s.jobs[id].oauthState != "" then s.index - {s.jobs[id].oauthState} else s.index,
         jobs := if deleted then s.jobs - {id} else s.jobs)
  }

  function Effected(s: Sys, e: Effect): Sys {
    match e
    case NoEffect => s
    case Creates(j, events, save) =>
      Saving(Minting(Logging(s.(used := s.used + {j.jobId}), events), "", j), j, save)
    case Settles(_, _, _, _, _, _) => Settling(s, e)
    case Deletes(id, unindexed, deleted) => Deleting(s, id, unindexed, deleted)
    case Records(_, events) => Logging(s, events)
    case Takes(w, lost) =>
      if s.queue == [] then s
      else
        At(s.(queue := s.queue[1..], log := s.log + [Dequeue(s.queue[0])]), w, if lost then Idle else Got(s.queue[0]))
    case Works(w, events, work) => At(Logging(s, events), w, work)
    case Writes(w, save, work) => At(if s.WorkOf(w).Copy() then Saving(s, s.WorkOf(w).job, save) else s, w, work)
  }

  // ---- What a handler makes of a job ----

  /** What a callback makes of the job it resolved to: the job it saves, and whether it is done. */
  function CalledBack(j: Job, declined: bool, ans: Answers): Advance {
    if declined then Advance(FailedWith(j, "signing:declined"), Refusal, [])
    else if !j.flow.Registered() then Advance(FailedWith(j, "signing:unknown_flow"), Refusal, [])
    else
      var a := AdvanceCallback(j, ans);
      match a.verdict
      case Refusal => a.(job := FailedWith(a.job, "signing:callback_failed"))
      case Redirect => a
      case Done => a.(job := Transitioned(a.job, Signing))
  }

  /** The READY document an archive request finds, if any. */
  function Archivable(s: Sys, id: string, documentId: string): (found: Option<nat>)
    ensures found.Some? ==> id in s.jobs && found.value < |s.jobs[id].documents|
  {
    if id !in s.jobs then None
    else
      var ds := s.jobs[id].documents;
      match DocIndex(ds, documentId)
      case None => None
      case Some(k) => if k < |ds| && ds[k].state.DocReady? then Some(k) else None
  }

  function ArchiveCalls(cfg: Config, j: Job, document: nat): seq<Event>
    requires document < |j.documents|
  {
    var cert := CertificateFor(cfg, j.flow, j.authCert);
    if !cert.Available() then [Event.Refused(j, ArchiveOp)]
    else [Requested(j, cert.source, ArchiveOp), Archive(j, document, j.documents[document].sessionId, cert.text)]
  }

  /** Document k of the stored job is the first with the id asked for, and it is READY. */
  ghost predicate Asked(s: Sys, id: string, documentId: string, k: int) {
    && id in s.jobs && FirstWith(s.jobs[id].documents, documentId, k)
    && s.jobs[id].documents[k].state.DocReady?
  }

  lemma AskedExactly(s: Sys, id: string, documentId: string, k: nat)
    ensures Asked(s, id, documentId, k) <==> Archivable(s, id, documentId) == Some(k)
  {
    if id in s.jobs { DocIndexFirst(s.jobs[id].documents, documentId); }
  }

  /** The calls of an archive request for document k, with the given certificate. */
  ghost function ArchiveRequest(cfg: Config, j: Job, k: nat, certificate: string): seq<Event>
    requires k < |j.documents|
  {
    if certificate == "" then [Event.Refused(j, ArchiveOp)]
    else [Requested(j, if cfg.accessCertFlows.Has(j.flow) then Deployment else Signer, ArchiveOp),
          Archive(j, k, j.documents[k].sessionId, certificate)]
  }

  lemma ArchiveMeans(cfg: Config, j: Job, k: nat, certificate: string)
    requires k < |j.documents| && Stands(cfg, j.flow, j.authCert, certificate)
    ensures ArchiveCalls(cfg, j, k) == ArchiveRequest(cfg, j, k, certificate)
  {
    CertificateExactly(cfg, j.flow, j.authCert);
  }

  // ---- What a worker makes of its job ----

  function AfterLoad(s: Sys, id: string, loaded: bool): Work {
    if !loaded || id !in s.jobs then Idle
    else
      match s.jobs[id].state
      case Signing => ToSign(s.jobs[id])
      case Finalizing => ToFinalize(s.jobs[id])
      case _ => Idle
  }

  /** The flow's Sign; for eidScan only as far as the code. */
  function Sign(j: Job, ans: SignAnswers): Outcome {
    if j.flow.IsCsc() then SignCsc(j, ans)
    else if j.flow.EidScan? then PublishCode(j, ans)
    else if j.flow.IsTrustedX() then SignServer(j, ans)
    else Outcome(j, false, [])
  }

  function AfterSign(o: Outcome): Work {
    if o.ok then ToSave(Transitioned(o.job, Finalizing), true)
    else ToSave(FailedWith(o.job, "signing:sign_failed"), false)
  }

  function Signed(j: Job, o: Outcome): Work {
    if !j.flow.Registered() then ToSave(FailedWith(j, "signing:unknown_flow"), false)
    else if j.flow.EidScan? && o.ok then ToPublish(o.job)
    else AfterSign(o)
  }

  function AfterPublish(j: Job, save: Save): Work {
    if save.Saved? then ToPush(j) else ToSave(FailedWith(j, "signing:sign_failed"), false)
  }

  function AfterFinalize(o: Outcome): Work {
    ToSave(if o.ok then o.job else FailedWith(o.job, "signapi:finalize_failed"), false)
  }

  // ---- One RunJob from end to end ----

  /** The answers one RunJob meets. */
  datatype RunAnswers = RunAnswers(
    loaded: bool, sign: SignAnswers, published: Save, device: SignAnswers, signed: Save, taken: bool, finished: Save)
  {
    predicate Lossless() { loaded && published.Saved? && signed.Saved? && finished.Saved? }
  }

  /** The flow's Sign as a whole: for eidScan the code is saved, and only then pushed. */
  function SignOutcome(j: Job, r: RunAnswers): Outcome {
    var o := Sign(j, r.sign);
    if !j.flow.EidScan? || !o.ok then o
    else if !r.published.Saved? then o.(ok := false)
    else var p := PushDevice(o.job, r.device); Outcome(p.job, p.ok, o.events + p.events)
  }

  /** The calls RunJob makes for the job it loaded. */
  function RunCalls(cfg: Config, j: Job, r: RunAnswers): seq<Event> {
    match j.state
    case Signing =>
      var o := SignOutcome(j, r);
      o.events + if o.ok then Finalized(cfg, Transitioned(o.job, Finalizing), r.taken).events else []
    case Finalizing => Finalized(cfg, j, r.taken).events
    case _ => []
  }

  // ---- The steps ----

  function EffectOf(cfg: Config, s: Sys, step: Step): Effect {
    match step
    case Prepare(id, input, ans, save) =>
      if !Admitted(cfg, input) then NoEffect
      else var o := Prepared(id, input, ans); Creates(o.job, o.events, save)
    case Callback(state, declined, ans, cleared, save, pushed) =>
      if state !in s.index || s.index[state] !in s.jobs then NoEffect
      else
        var j := s.jobs[s.index[state]];
        var a := CalledBack(j, declined, ans);
        var spent := if cleared then Some(state) else None;
        Settles(j, a.job, a.events, spent, save, a.verdict.Done? && save.Saved? && pushed)
    case SubmitSignatures(id, sigs, save, pushed) =>
      if id !in s.jobs || Submit(cfg, s.jobs[id], sigs).None? then NoEffect
      else Settles(s.jobs[id], Submit(cfg, s.jobs[id], sigs).value, [], None, save, save.Saved? && pushed)
    case DeleteJob(id, unindexed, deleted) => Deletes(id, unindexed, deleted)
    case ArchiveJobDocument(id, documentId) =>
      (match Archivable(s, id, documentId)
       case None => NoEffect
       case Some(k) => Records(id, ArchiveCalls(cfg, s.jobs[id], k)))
    case WorkerDequeue(w, lost) => if s.WorkOf(w).Idle? then Takes(w, lost) else NoEffect
    case WorkerLoad(w, loaded) =>
      (match s.WorkOf(w) case Got(id) => Works(w, [], AfterLoad(s, id, loaded)) case _ => NoEffect)
    case WorkerSign(w, ans) =>
      (match s.WorkOf(w)
       case ToSign(j) => var o := Sign(j, ans); Works(w, o.events, Signed(j, o))
       case _ => NoEffect)
    case WorkerPublish(w, save) =>
      (match s.WorkOf(w) case ToPublish(j) => Writes(w, save, AfterPublish(j, save)) case _ => NoEffect)
    case WorkerPush(w, ans) =>
      (match s.WorkOf(w)
       case ToPush(j) => var o := PushDevice(j, ans); Works(w, o.events, AfterSign(o))
       case _ => NoEffect)
    case WorkerSave(w, save) =>
      (match s.WorkOf(w)
       case ToSave(j, more) => Writes(w, save, if more then ToFinalize(j) else Idle)
       case _ => NoEffect)
    case WorkerFinalize(w, taken) =>
      (match s.WorkOf(w)
       case ToFinalize(j) => var o := Finalized(cfg, j, taken); Works(w, o.events, AfterFinalize(o))
       case _ => NoEffect)
    case WorkerCrash(w) => if w in s.workers then Works(w, [], Idle) else NoEffect
  }

  function Next(cfg: Config, s: Sys, step: Step): Sys {
    Effected(s, EffectOf(cfg, s, step))
  }

  // ---- Runs ----

  /** Job ids and OAuth states are random enough never to repeat. */
  predicate Fresh(s: Sys, step: Step) {
    && (step.Prepare? ==> step.id !in s.used)
    && (step.Prepare? || step.Callback? ==> step.ans.state.Some? ==>
          step.ans.state.value != "" && step.ans.state.value !in s.minted)
  }

  /** One step of a run, under the configuration of that moment. */
  datatype Move = Move(cfg: Config, step: Step)

  /** The state after a run from the empty store. */
  function After(run: seq<Move>): Sys {
    if run == [] then INITIAL
    else Next(run[|run| - 1].cfg, After(run[..|run| - 1]), run[|run| - 1].step)
  }

  ghost predicate Possible(run: seq<Move>) {
    forall k :: 0 <= k < |run| ==> Fresh(After(run[..k]), run[k].step)
  }

  /** A run goes on with any step that is fresh. */
  lemma {:induction false} Extended(run: seq<Move>, cfg: Config, step: Step)
    requires Possible(run) && Fresh(After(run), step)
    ensures Possible(run + [Move(cfg, step)])
    ensures After(run + [Move(cfg, step)]) == Next(cfg, After(run), step)
  {
    var run' := run + [Move(cfg, step)];
    assert run'[..|run|] == run;
    forall k | 0 <= k < |run'| ensures Fresh(After(run'[..k]), run'[k].step) {
      if k < |run| { assert run'[..k] == run[..k]; }
    }
  }
}
