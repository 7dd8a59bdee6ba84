/**
 The orchestrator and the worker (signing/orchestrator.go, signing/operations.go,
 signing/worker.go) as they run over the store. Every public method is one step of the machine,
 and RunJob a sequence of one worker's steps, so whatever holds of every run of the machine holds
 of every sequence of calls.
 */
module Orchestration {
  import opened Wrappers
  import opened Jobs
  import opened Upstream
  import opened AuthCert
  import opened Flows
  import opened Machine
  import opened Traces
  import opened JobRecords
  import opened JobStore
  import opened SigningFlows
  import opened Outcomes
  import Shape

  /** Where a worker stands once Sign is over. */
  function Resolved(j: Job, ok: bool): Work {
    if ok then ToSave(Transitioned(j, Finalizing), true)
    else ToSave(FailedWith(j, if j.flow.Registered() then "signing:sign_failed" else "signing:unknown_flow"), false)
  }

  /** Sign as a whole: what it comes to at once, or for eidScan once the code is saved and the push answered. */
  lemma WholeSign(j: Job, r: RunAnswers, o: Outcome)
    requires o == Sign(j, r.sign) && o.job.flow == j.flow
    ensures !(j.flow.EidScan? && o.ok) ==> SignOutcome(j, r) == o && Signed(j, o) == Resolved(o.job, o.ok)
    ensures j.flow.EidScan? && o.ok ==>
      && Signed(j, o) == ToPublish(o.job)
      && SignOutcome(j, r) ==
         if !r.published.Saved? then o.(ok := false)
         else var p := PushDevice(o.job, r.device); Outcome(p.job, p.ok, o.events + p.events)
  {
  }

  lemma Regrouped(a: seq<Event>, b: seq<Event>, c: seq<Event>)
    ensures a + b + c == a + (b + c)
  {
  }

  /** No job but one is touched. */
  ghost predicate OthersKept(was: map<string, Job>, jobs: map<string, Job>, id: string) {
    forall x :: x != id ==> (x in jobs <==> x in was) && (x in jobs ==> jobs[x] == was[x])
  }

  lemma SavedKeepsOthers(was: map<string, Job>, jobs: map<string, Job>, j: Job, save: Save)
    requires OthersKept(was, jobs, j.jobId)
    ensures OthersKept(was, SavedJobs(jobs, j, save), j.jobId)
  {
  }

  /** Declined or refused, done, or sent on to another leg. */
  ghost function VerdictOn(j: Job, declined: bool, ans: Answers): Verdict {
    if declined then Refusal else if Completes(j, ans) then Done else if Redirects(j, ans) then Redirect else Refusal
  }

  /** If the Save is written the job is FAILED when declined, and otherwise what its leg makes of it; no other is. */
  ghost predicate CalledAndSaved(j: Job, declined: bool, ans: Answers, was: map<string, Job>, jobs: map<string, Job>,
                                 redis: Save) {
    if !redis.Written() then jobs == was
    else
      && j.jobId in jobs && jobs == was[j.jobId := jobs[j.jobId]]
      && if declined then FailedAs(j, jobs[j.jobId], "signing:declined") else CalledAs(j, ans, jobs[j.jobId])
  }

  /** What a callback comes to, in the words of its contract. */
  lemma CalledBackComesTo(j: Job, declined: bool, ans: Answers, was: map<string, Job>, redis: Save)
    requires Shape.WellFormed(j)
    ensures
      var a := CalledBack(j, declined, ans);
      && a.job.jobId == j.jobId
      && a.verdict == VerdictOn(j, declined, ans)
      && (declined ==> a.events == [])
      && CalledAndSaved(j, declined, ans, was, SavedJobs(was, a.job, redis), redis)
  {
    Shape.CalledBackIsWellFormed(j, declined, ans);
    if declined {
      FailedMeans(j, "signing:declined");
    } else {
      CallbackMeans(j, ans);
      CalledBackMeans(j, ans);
    }
  }

  lemma PreparedComesTo(id: string, input: PrepareInput, ans: Answers)
    requires input.flow.Registered() && ValidBatch(input)
    ensures var o := Prepared(id, input, ans); o.job.jobId == id && PreparedAs(id, input, ans, o.ok, o.job)
  {
    PreparedMeans(id, input, ans);
    Shape.PreparedIsWellFormed(id, input, ans);
  }

  /** A stored job is well-formed, because the store is what some run made of it. */
  lemma StoredInRun(t: Trace, id: string)
    requires Reaches(t) && id in t.sys.jobs
    ensures Shape.WellFormed(t.sys.jobs[id])
  {
    Reached(t);
    Shape.StoredIsWellFormed(t.sys, id);
  }

  class Orchestrator {
    const cfg: Config
    const store: Store
    var log: seq<Event>
    ghost var trace: Trace

    /** The store is what the run so far has made of it. */
    ghost predicate Valid()
      reads this, store
    {
      Reaches(trace) && Same(trace.sys, store.jobs, store.index, store.queue, log)
    }

    constructor (cfg: Config)
      ensures Valid() && fresh(store) && trace == Trace([], INITIAL, true) && this.cfg == cfg
    {
      this.cfg := cfg;
      store := new Store();
      log, trace := [], Trace([], INITIAL, true);
    }

    /** Prepare; None is a refusal before anything was created. */
    method Prepare(id: string, input: PrepareInput, ans: Answers, redis: Save) returns (result: Option<bool>)
      requires Valid() && Fresh(trace.sys, Step.Prepare(id, input, ans, redis))
      modifies this, store
      ensures Valid() && Onward(cfg, old(trace), Step.Prepare(id, input, ans, redis), trace)
      ensures result.Some? <==> Admitted(cfg, input)
      ensures result == Some(true) <==> Admitted(cfg, input) && Prepared(id, input, ans).ok && redis.Saved?
      ensures if Admitted(cfg, input) && redis.Written() then
                && id in store.jobs && store.jobs == old(store.jobs)[id := store.jobs[id]]
                && PreparedAs(id, input, ans, Prepared(id, input, ans).ok, store.jobs[id])
              else store.jobs == old(store.jobs)
      ensures store.queue == old(store.queue)
    {
      trace := TookPrepare(cfg, trace, id, input, ans, redis);
      var admitted := Admit(cfg, input);
      if !admitted { return None; }
      var ok, saved := PrepareAndSave(id, input, ans, redis);
      PreparedComesTo(id, input, ans);
      return Some(ok && saved);
    }

    /** Prepare once the request is admitted. */
    method PrepareAndSave(id: string, input: PrepareInput, ans: Answers, redis: Save) returns (ok: bool, saved: bool)
      modifies this`log, store
      ensures
        var o := Prepared(id, input, ans);
        && ok == o.ok && saved == redis.Saved?
        && store.jobs == SavedJobs(old(store.jobs), o.job, redis)
        && store.index == SavedIndex(old(store.index), o.job, redis)
        && store.queue == old(store.queue) && log == old(log) + o.events
    {
      var j, calls;
      j, ok, calls := PrepareJob(id, input, ans);
      log := log + calls;
      saved := store.Save(j, redis);
    }

    /** The end of Callback and SubmitSignatures: the job is saved, and only then queued. */
    method SaveAndEnqueue(j: JobRecord, enqueue: bool, redis: Save, pushed: bool) returns (saved: bool)
      modifies this`log, store
      ensures saved <==> redis.Saved?
      ensures store.jobs == SavedJobs(old(store.jobs), j.Value(), redis)
      ensures store.index == SavedIndex(old(store.index), j.Value(), redis)
      ensures if enqueue && redis.Saved? && pushed then store.queue == old(store.queue) + [j.jobId]
        && log == old(log) + [Enqueue(j.Value())]
              else store.queue == old(store.queue) && log == old(log)
    {
      saved := store.Save(j, redis);
      if enqueue && saved {
        store.EnqueueWork(j.jobId, pushed);
        if pushed { log := log + [Enqueue(j.Value())]; }
      }
    }

    /** Callback; None when the state resolves to no job, or a read fails. */
    method Callback(state: string, resolved: bool, reached: bool, declined: bool, ans: Answers, cleared: bool,
                    redis: Save, pushed: bool)
      returns (verdict: Option<Verdict>)
      requires Valid() && Fresh(trace.sys, Step.Callback(state, declined, ans, cleared, redis, pushed))
      modifies this, store
      ensures Valid()
      ensures resolved && reached ==>
        Onward(cfg, old(trace), Step.Callback(state, declined, ans, cleared, redis, pushed), trace)
      ensures !(resolved && reached) ==> trace == old(trace)
      ensures verdict.None? <==>
        !resolved || !reached || state !in old(store.index) || old(store.index)[state] !in old(store.jobs)
      ensures verdict.Some? ==>
        var j := old(store.jobs)[old(store.index)[state]];
        && verdict.value == VerdictOn(j, declined, ans)
        && CalledAndSaved(j, declined, ans, old(store.jobs), store.jobs, redis)
        && store.queue == (if VerdictOn(j, declined, ans).Done? && redis.Saved? && pushed then
                             old(store.queue) + [j.jobId] else old(store.queue))
        && (declined ==> log == old(log))
    {
      if state in store.index && store.index[state] in store.jobs {
        StoredInRun(trace, store.index[state]);
        CalledBackComesTo(store.jobs[store.index[state]], declined, ans, store.jobs, redis);
      }
      verdict := ResolveAndAdvance(state, resolved, reached, declined, ans, cleared, redis, pushed);
    }

    /** Callback, in terms of what the job's leg makes of it. */
    method ResolveAndAdvance(state: string, resolved: bool, reached: bool, declined: bool, ans: Answers, cleared: bool,
                             redis: Save, pushed: bool)
      returns (verdict: Option<Verdict>)
      requires Valid() && Fresh(trace.sys, Step.Callback(state, declined, ans, cleared, redis, pushed))
      modifies this, store
      ensures Valid()
      ensures resolved && reached ==>
        Onward(cfg, old(trace), Step.Callback(state, declined, ans, cleared, redis, pushed), trace)
      ensures !(resolved && reached) ==> trace == old(trace)
      ensures verdict.None? <==>
        !resolved || !reached || state !in old(store.index) || old(store.index)[state] !in old(store.jobs)
      ensures verdict.Some? ==>
        var a := CalledBack(old(store.jobs)[old(store.index)[state]], declined, ans);
        && verdict.value == a.verdict && store.jobs == SavedJobs(old(store.jobs), a.job, redis)
        && store.queue == (if a.verdict.Done? && redis.Saved? && pushed then old(store.queue) + [a.job.jobId]
                           else old(store.queue))
        && (a.events == [] && a.verdict.Refusal? ==> log == old(log))
    {
      var j := store.LoadByState(state, resolved, reached);
      if !resolved || !reached { return None; }
      trace := TookCallback(cfg, trace, state, declined, ans, cleared, redis, pushed);
      if j == null { return None; }
      store.ClearState(state, cleared);
      var v := AdvanceAndSave(j, declined, ans, redis, pushed);
      return Some(v);
    }

    /** Callback once its job is loaded and its state cleared. */
    method AdvanceAndSave(j: JobRecord, declined: bool, ans: Answers, redis: Save, pushed: bool) returns (v: Verdict)
      modifies this`log, store, j
      ensures
        var a := CalledBack(old(j.Value()), declined, ans);
        var enqueued := a.verdict.Done? && redis.Saved? && pushed;
        && v == a.verdict
        && store.jobs == SavedJobs(old(store.jobs), a.job, redis)
        && store.index == SavedIndex(old(store.index), a.job, redis)
        && store.queue == (if enqueued then old(store.queue) + [a.job.jobId] else old(store.queue))
        && log == (if enqueued then old(log) + a.events + [Enqueue(a.job)] else old(log) + a.events)
    {
      var calls;
      v, calls := AdvanceJob(j, declined, ans);
      log := log + calls;
      var saved := SaveAndEnqueue(j, v.Done?, redis, pushed);
    }

    method SubmitSignatures(id: string, reached: bool, sigs: seq<Submitted>, redis: Save, pushed: bool)
      returns (ok: bool)
      requires Valid()
      modifies this, store
      ensures Valid()
      ensures if reached then Onward(cfg, old(trace), Step.SubmitSignatures(id, sigs, redis, pushed), trace)
              else trace == old(trace)
      ensures ok <==> reached && id in old(store.jobs) && Submit(cfg, old(store.jobs)[id], sigs).Some? && redis.Saved?
      ensures (reached && id in old(store.jobs) ==> Submit(cfg, old(store.jobs)[id], sigs).None?) ==>
        store.jobs == old(store.jobs) && store.index == old(store.index) && store.queue == old(store.queue)
          && log == old(log)
    {
      var j := store.Load(id, reached);
      if !reached { return false; }
      trace := TookSubmit(cfg, trace, id, sigs, redis, pushed);
      if j == null { return false; }
      var accepted := SubmitToJob(cfg, j, sigs);
      if !accepted { return false; }
      ok := SaveAndEnqueue(j, true, redis, pushed);
    }

    /** DeleteJob; not ok when there is no such job, it cannot be read, or its deletion is not acknowledged. */
    method DeleteJob(id: string, reached: bool, unindexed: bool, deleted: bool, acknowledged: bool) returns (ok: bool)
      requires Valid()
      modifies this, store
      ensures Valid()
      ensures if reached then Onward(cfg, old(trace), Step.DeleteJob(id, unindexed, deleted), trace)
              else trace == old(trace)
      ensures ok <==> reached && id in old(store.jobs) && deleted && acknowledged
      ensures store.jobs == if reached && deleted then old(store.jobs) - {id} else old(store.jobs)
    {
      var j := store.Load(id, reached);
      if !reached { return false; }
      trace := TookDelete(cfg, trace, id, unindexed, deleted);
      if j == null { return false; }
      ok := store.Delete(j, unindexed, deleted, acknowledged);
    }

    /** ArchiveJobDocument as far as the archive call; the download that follows is not part of the model. */
    method ArchiveJobDocument(id: string, reached: bool, documentId: string) returns (sent: bool)
      requires Valid()
      modifies this
      ensures Valid()
      ensures if reached then Onward(cfg, old(trace), Step.ArchiveJobDocument(id, documentId), trace)
              else trace == old(trace)
      ensures forall k: nat, certificate ::
        && reached && id in store.jobs && FirstWith(store.jobs[id].documents, documentId, k)
        && store.jobs[id].documents[k].state.DocReady?
        && Stands(cfg, store.jobs[id].flow, store.jobs[id].authCert, certificate) ==>
          var j := store.jobs[id];
          && (sent <==> certificate != "")
          && log == old(log) + ArchiveRequest(cfg, j, k, certificate)
          && (sent ==> log[|log| - 1] == Archive(j, k, j.documents[k].sessionId, certificate))
      ensures !reached || id !in store.jobs
              || (forall k :: FirstWith(store.jobs[id].documents, documentId, k) ==>
                    !store.jobs[id].documents[k].state.DocReady?) ==>
        !sent && log == old(log)
    {
      var j := store.Load(id, reached);
      if !reached { return false; }
      trace := TookArchive(cfg, trace, id, documentId);
      if j == null { return false; }
      var k := j.Doc(documentId);
      CertificateExactly(cfg, j.flow, j.authCert);
      if k.None? || !j.documents[k.value].state.DocReady? { return false; }
      var cert := CertificateFor(cfg, j.flow, j.authCert);
      if !cert.Available() {
        log := log + [Event.Refused(j.Value(), ArchiveOp)];
        return false;
      }
      log := log + [Requested(j.Value(), cert.source, ArchiveOp),
                    Archive(j.Value(), k.value, j.documents[k.value].sessionId, cert.text)];
      return true;
    }

    // ---- The worker ----

    /** A worker's Save of the job it holds. */
    method SaveHeld(w: nat, j: JobRecord, more: bool, redis: Save)
      requires Valid() && trace.sys.WorkOf(w) == ToSave(j.Value(), more)
      modifies this`trace, store
      ensures Valid() && Gone(cfg, old(trace), [WorkerSave(w, redis)], trace)
      ensures store.queue == old(store.queue) && store.jobs == SavedJobs(old(store.jobs), j.Value(), redis)
      ensures trace.sys.workers == old(trace).sys.workers[w := if more then ToFinalize(j.Value()) else Idle]
      ensures if more then j.state.Finalizing? else j.state.Terminal()
    {
      trace := TookSave(cfg, trace, w, j.Value(), more, redis);
      var saved := store.Save(j, redis);
    }

    /**
     signDevice once the code is on the job: the job is stored with it, and only if that is
     acknowledged is anything pushed.
     */
    method PushHeld(w: nat, j: JobRecord, r: RunAnswers) returns (ok: bool)
      requires Valid() && trace.sys.WorkOf(w) == ToPublish(j.Value())
      modifies this, store, j`documents
      ensures Valid() && Gone(cfg, old(trace), Pushing(w, r), trace)
      ensures store.queue == old(store.queue) && store.jobs == SavedJobs(old(store.jobs), old(j.Value()), r.published)
      ensures
        var p := PushDevice(old(j.Value()), r.device);
        if r.published.Saved? then j.Value() == p.job && ok == p.ok && log == old(log) + p.events
        else j.Value() == old(j.Value()) && !ok && log == old(log)
      ensures trace.sys.workers == old(trace).sys.workers[w := AfterSign(Outcome(j.Value(), ok, []))]
    {
      trace := TookPublish(cfg, trace, w, j.Value(), r.published);
      ghost var published := trace;
      ok := store.Save(j, r.published);
      if ok {
        ghost var held := j.Value();
        var calls;
        ok, calls := PushToDevice(j, r.device);
        trace := TookPush(cfg, trace, w, held, r.device, Outcome(j.Value(), ok, calls));
        log := log + calls;
      } else {
        trace := SkipPush(cfg, trace, w, r);
      }
      GoneOn(cfg, old(trace), [WorkerPublish(w, r.published)], published, [WorkerPush(w, r.device)], trace);
    }

    /** The flow's Sign: where it leaves the worker, the job as far as it got, and the calls made. */
    method SignHeld(w: nat, j: JobRecord, r: RunAnswers) returns (ok: bool)
      requires Valid() && trace.sys.WorkOf(w) == ToSign(j.Value())
      modifies this, store, j`documents, j`signingToken, j`verificationCode
      ensures Valid() && Gone(cfg, old(trace), [WorkerSign(w, r.sign)] + Pushing(w, r), trace)
      ensures store.queue == old(store.queue) && OthersKept(old(store.jobs), store.jobs, j.jobId)
      ensures
        var o := SignOutcome(old(j.Value()), r);
        j.Value() == o.job && ok == o.ok && log == old(log) + o.events
      ensures trace.sys.workers == old(trace).sys.workers[w := Resolved(j.Value(), ok)]
    {
      ghost var held := j.Value();
      var calls;
      ok, calls := SignJob(j, r.sign);
      trace := TookSign(cfg, trace, w, held, r.sign, Outcome(j.Value(), ok, calls));
      ghost var signed := trace;
      log := log + calls;
      WholeSign(held, r, Outcome(j.Value(), ok, calls));
      if j.flow.EidScan? && ok {
        ghost var coded := j.Value();
        ok := PushHeld(w, j, r);
        Regrouped(old(log), calls, PushDevice(coded, r.device).events);
        SavedKeepsOthers(old(store.jobs), old(store.jobs), coded, r.published);
      } else {
        trace := SkipPushing(cfg, trace, w, r);
      }
      GoneOn(cfg, old(trace), [WorkerSign(w, r.sign)], signed, Pushing(w, r), trace);
    }

    /** How Sign went, on the job. */
    method ResolveSign(j: JobRecord, ok: bool)
      modifies j
      ensures ToSave(j.Value(), ok) == Resolved(old(j.Value()), ok)
    {
      if ok {
        var moved := j.Transition(Finalizing);
      } else {
        j.Fail(if j.flow.Registered() then "signing:sign_failed" else "signing:unknown_flow");
      }
    }

    /** The Save after Sign. */
    method SaveSigned(w: nat, j: JobRecord, ok: bool, redis: Save)
      requires Valid() && trace.sys.WorkOf(w) == Resolved(j.Value(), ok)
      modifies this`trace, store, j
      ensures Valid() && Gone(cfg, old(trace), [WorkerSave(w, redis)], trace)
      ensures ToSave(j.Value(), ok) == Resolved(old(j.Value()), ok) && j.jobId == old(j.jobId)
      ensures store.queue == old(store.queue) && store.jobs == SavedJobs(old(store.jobs), j.Value(), redis)
      ensures trace.sys.workers == old(trace).sys.workers[w := if ok then ToFinalize(j.Value()) else Idle]
      ensures !ok ==> j.state.Terminal()
    {
      ghost var held := j.Value();
      ResolveSign(j, ok);
      assert j.jobId == held.jobId;
      SaveHeld(w, j, ok, redis);
    }

    /** The SIGNING half of RunJob: FINALIZING when signed, FAILED when not, and saved either way. */
    method SignAndSave(w: nat, j: JobRecord, r: RunAnswers) returns (ok: bool)
      requires Valid() && trace.sys.WorkOf(w) == ToSign(j.Value())
      modifies this, store, j
      ensures Valid() && Gone(cfg, old(trace), SigningSteps(w, r), trace)
      ensures j.jobId == old(j.jobId) && store.queue == old(store.queue)
        && OthersKept(old(store.jobs), store.jobs, j.jobId)
      ensures
        var o := SignOutcome(old(j.Value()), r);
        ToSave(j.Value(), ok) == Resolved(o.job, o.ok) && log == old(log) + o.events
      ensures trace.sys.workers == old(trace).sys.workers[w := if ok then ToFinalize(j.Value()) else Idle]
      ensures r.Lossless() ==> j.jobId in store.jobs && store.jobs[j.jobId] == j.Value()
      ensures !ok ==> j.state.Terminal()
    {
      ok := SignHeld(w, j, r);
      ghost var signed, kept := trace, store.jobs;
      SaveSigned(w, j, ok, r.signed);
      assert log == old(log) + SignOutcome(old(j.Value()), r).events;
      SavedKeepsOthers(old(store.jobs), kept, j.Value(), r.signed);
      GoneOn(cfg, old(trace), [WorkerSign(w, r.sign)] + Pushing(w, r), signed, [WorkerSave(w, r.signed)], trace);
    }

    /** How finalize went, on the job. */
    method ResolveFinalize(j: JobRecord, ok: bool)
      modifies j
      ensures ToSave(j.Value(), false) == AfterFinalize(Outcome(old(j.Value()), ok, []))
    {
      if !ok { j.Fail("signapi:finalize_failed"); }
    }

    /** The Save after finalize. */
    method SaveFinalized(w: nat, j: JobRecord, ok: bool, redis: Save)
      requires Valid() && trace.sys.WorkOf(w) == AfterFinalize(Outcome(j.Value(), ok, []))
      modifies this`trace, store, j
      ensures Valid() && Gone(cfg, old(trace), [WorkerSave(w, redis)], trace)
      ensures j.jobId == old(j.jobId) && store.queue == old(store.queue)
      ensures store.jobs == SavedJobs(old(store.jobs), j.Value(), redis) && j.state.Terminal()
      ensures trace.sys.workers == old(trace).sys.workers[w := Idle]
    {
      ghost var held := j.Value();
      ResolveFinalize(j, ok);
      assert j.jobId == held.jobId;
      SaveHeld(w, j, false, redis);
    }

    /** The FINALIZING half of RunJob. */
    method FinalizeHeld(w: nat, j: JobRecord, r: RunAnswers)
      requires Valid() && trace.sys.WorkOf(w) == ToFinalize(j.Value())
      modifies this, store, j
      ensures Valid() && Gone(cfg, old(trace), Finishing(w, r), trace)
      ensures j.jobId == old(j.jobId) && store.queue == old(store.queue)
      ensures log == old(log) + Finalized(cfg, old(j.Value()), r.taken).events
      ensures store.jobs == SavedJobs(old(store.jobs), j.Value(), r.finished) && j.state.Terminal()
      ensures trace.sys.workers == old(trace).sys.workers[w := Idle]
    {
      ghost var held := j.Value();
      var ok, calls := FinalizeJob(cfg, j, r.taken);
      trace := TookFinalize(cfg, trace, w, held, r.taken, Outcome(j.Value(), ok, calls));
      ghost var finalized := trace;
      log := log + calls;
      SaveFinalized(w, j, ok, r.finished);
      GoneOn(cfg, old(trace), [WorkerFinalize(w, r.taken)], finalized, [WorkerSave(w, r.finished)], trace);
    }

    /** What RunJob does with a job loaded as SIGNING or FINALIZING. */
    method RunLoaded(w: nat, j: JobRecord, r: RunAnswers)
      requires Valid() && j.state.Workable()
      requires trace.sys.WorkOf(w) == (if j.state.Signing? then ToSign(j.Value()) else ToFinalize(j.Value()))
      modifies this, store, j
      ensures Valid() && Gone(cfg, old(trace), SigningSteps(w, r) + Finishing(w, r), trace)
      ensures j.jobId == old(j.jobId) && store.queue == old(store.queue)
        && OthersKept(old(store.jobs), store.jobs, j.jobId)
      ensures log == old(log) + RunCalls(cfg, old(j.Value()), r)
      ensures trace.sys.workers == old(trace).sys.workers[w := Idle]
      ensures r.Lossless() ==> j.jobId in store.jobs && store.jobs[j.jobId].state.Terminal()
    {
      if j.state.Signing? {
        RunSigning(w, j, r);
      } else {
        trace := SkipSigning(cfg, trace, w, r);
        ghost var skipped := trace;
        FinalizeHeld(w, j, r);
        GoneOn(cfg, old(trace), SigningSteps(w, r), skipped, Finishing(w, r), trace);
      }
    }

    /** The SIGNING case of RunJob, falling through to the FINALIZING one when signed. */
    method RunSigning(w: nat, j: JobRecord, r: RunAnswers)
      requires Valid() && j.state.Signing? && trace.sys.WorkOf(w) == ToSign(j.Value())
      modifies this, store, j
      ensures Valid() && Gone(cfg, old(trace), SigningSteps(w, r) + Finishing(w, r), trace)
      ensures j.jobId == old(j.jobId) && store.queue == old(store.queue)
        && OthersKept(old(store.jobs), store.jobs, j.jobId)
      ensures log == old(log) + RunCalls(cfg, old(j.Value()), r)
      ensures trace.sys.workers == old(trace).sys.workers[w := Idle]
      ensures r.Lossless() ==> j.jobId in store.jobs && store.jobs[j.jobId].state.Terminal()
    {
      ghost var o := SignOutcome(j.Value(), r);
      var ok := SignAndSave(w, j, r);
      ghost var signed := trace;
      if ok {
        ghost var sent := Finalized(cfg, j.Value(), r.taken).events;
        FinalizeHeld(w, j, r);
        Regrouped(old(log), o.events, sent);
      } else {
        trace := SkipFinishing(cfg, trace, w, r);
      }
      GoneOn(cfg, old(trace), SigningSteps(w, r), signed, Finishing(w, r), trace);
    }

    /**
     RunJob, by the worker that dequeued the id: exactly its steps under the answers met, and exactly
     the calls of the job it loads. It touches no other job, sends and changes nothing unless the
     stored job is SIGNING or FINALIZING, and unless a write is lost leaves it neither.
     */
    method RunJob(w: nat, id: string, r: RunAnswers)
      requires Valid() && trace.sys.WorkOf(w) == Got(id)
      modifies this, store
      ensures Valid() && Gone(cfg, old(trace), Round(w, r), trace)
      ensures store.queue == old(store.queue) && OthersKept(old(store.jobs), store.jobs, id)
      ensures log == old(log) + if r.loaded && id in old(store.jobs) then RunCalls(cfg, old(store.jobs)[id], r) else []
      ensures trace.sys.workers == old(trace).sys.workers[w := Idle]
      ensures id !in old(store.jobs) || !old(store.jobs)[id].state.Workable() ==>
        store.jobs == old(store.jobs) && store.index == old(store.index) && log == old(log)
      ensures r.Lossless() && id in store.jobs ==> !store.jobs[id].state.Workable()
    {
      trace := TookLoad(cfg, trace, w, id, r.loaded);
      ghost var loaded := trace;
      var j := store.Load(id, r.loaded);
      if j == null || !j.state.Workable() {
        trace := SkipAll(cfg, trace, w, r);
        assert log + [] == log;
      } else {
        RunLoaded(w, j, r);
      }
      GoneOn(cfg, old(trace), [WorkerLoad(w, r.loaded)], loaded, SigningSteps(w, r) + Finishing(w, r), trace);
    }

    /** One turn of the worker's loop; an id whose dequeue is lost is gone from the queue. */
    method WorkOnce(w: nat, turn: Turn)
      requires Valid() && trace.sys.WorkOf(w).Idle?
      modifies this, store
      ensures Valid() && Gone(cfg, old(trace), TurnSteps(w, turn), trace)
      ensures store.queue == if old(store.queue) == [] then [] else old(store.queue)[1..]
      ensures trace.sys.workers == old(trace).sys.workers || trace.sys.workers == old(trace).sys.workers[w := Idle]
    {
      trace := TookDequeue(cfg, trace, w, turn.lost);
      ghost var taken := trace;
      if store.queue != [] { log := log + [Dequeue(store.queue[0])]; }
      var id := store.DequeueWork(turn.lost);
      if id.Some? {
        RunJob(w, id.value, turn.answers);
      } else {
        trace := SkipRound(cfg, trace, w, turn.answers);
      }
      GoneOn(cfg, old(trace), [WorkerDequeue(w, turn.lost)], taken, Round(w, turn.answers), trace);
    }

    /** The worker's loop until it is stopped: an empty queue is waited on again. */
    method Work(w: nat, turns: seq<Turn>)
      requires Valid() && trace.sys.WorkOf(w).Idle?
      modifies this, store
      ensures Valid() && Gone(cfg, old(trace), Turns(w, turns), trace)
      ensures store.queue == if |turns| < |old(store.queue)| then old(store.queue)[|turns|..] else []
      ensures old(trace).smooth && (forall turn :: turn in turns ==> turn.Lossless()) ==> trace.smooth
      ensures trace.sys.workers == old(trace).sys.workers || trace.sys.workers == old(trace).sys.workers[w := Idle]
    {
      NotGone(cfg, trace);
      for i := 0 to |turns|
        invariant Valid() && Gone(cfg, old(trace), Turns(w, turns[..i]), trace)
        invariant store.queue == if i < |old(store.queue)| then old(store.queue)[i..] else []
        invariant old(trace).smooth && (forall turn :: turn in turns ==> turn.Lossless()) ==> trace.smooth
        invariant trace.sys.workers == old(trace).sys.workers || trace.sys.workers == old(trace).sys.workers[w := Idle]
      {
        ghost var before := trace;
        WorkOnce(w, turns[i]);
        assert turns[..i + 1][..i] == turns[..i];
        GoneOn(cfg, old(trace), Turns(w, turns[..i]), before, TurnSteps(w, turns[i]), trace);
        if before.smooth && turns[i].Lossless() { TurnIsSmooth(cfg, before, w, turns[i], trace); }
      }
      assert turns[..|turns|] == turns;
    }

    /** One worker left alone with the queue, losing nothing, leaves no job stored as SIGNING or FINALIZING. */
    method Drain(w: nat, turns: seq<Turn>)
      requires Valid() && trace.smooth && (forall v :: v in trace.sys.workers ==> trace.sys.workers[v].Idle?)
      requires |turns| >= |store.queue| && forall turn :: turn in turns ==> turn.Lossless()
      modifies this, store
      ensures Valid() && Gone(cfg, old(trace), Turns(w, turns), trace) && store.queue == []
      ensures forall id :: id in store.jobs ==> !store.jobs[id].state.Workable()
    {
      Work(w, turns);
      NothingLeft(trace);
    }
  }
}
