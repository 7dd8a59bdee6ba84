/**
 A queue item that is lost. A job whose id was dequeued and lost, or never queued, stays as it is:
 no step queues it again, and only a callback, which fails it, or its deletion touches it. Running
 such an id again is safe exactly for the states and logs given here.
 */
module Stranding {
  import opened Wrappers
  import opened Jobs
  import opened Upstream
  import opened AuthCert
  import opened Flows
  import opened Machine
  import opened Copies
  import opened Shape
  import opened AtMostOnce
  import opened Provenance
  import opened DigestBinding
  import opened StateIndex
  import opened Lifecycle

  /** The id is neither queued nor with a worker. */
  ghost predicate Unattended(s: Sys, id: string) {
    id !in s.queue && forall w :: w in s.workers ==> !s.workers[w].On(id)
  }

  /** A job that needs a worker and has none coming. */
  ghost predicate Stranded(s: Sys, id: string) {
    id in s.jobs && s.jobs[id].state.Workable() && Unattended(s, id)
  }

  // ---- It happens ----

  /** A run in which a dequeue is lost, and the job is left SIGNING with no worker coming. */
  lemma DequeueCanStrand() returns (run: seq<Move>)
    ensures Possible(run) && Stranded(After(run), "j") && After(run).jobs["j"].state.Signing?
  {
    var run1, j1 := OneConsented();
    var j := CalledBackOnce(After(run1), j1, ANSWERS.(state := None));
    var run2 := Extends(run1, Callback("x", false, ANSWERS.(state := None), true, Saved, true));
    AlwaysOnce(run2);
    LostDequeue(After(run2), j);
    run := Extends(run2, WorkerDequeue(0, true));
  }

  lemma LostDequeue(s: Sys, j: Job)
    requires Once(s) && Holds(s, j, ["j"], Idle) && j.state.Signing?
    ensures Stranded(Next(CONFIG, s, WorkerDequeue(0, true)), "j")
    ensures Next(CONFIG, s, WorkerDequeue(0, true)).jobs["j"].state.Signing?
  {
    assert OnceFor(s, "j");
    assert multiset(s.queue)["j"] == 1;
    TakenStore(s, Takes(0, true));
  }

  // ---- And stays ----

  /** Gone from queue and workers, and past every handler that could enqueue it. */
  ghost predicate Abandoned(s: Sys, id: string) {
    && id in s.used && Unattended(s, id)
    && (id in s.jobs ==> Past(s.jobs[id]))
  }

  lemma StrandedIsAbandoned(s: Sys, id: string)
    requires Shaped(s) && Once(s) && Stranded(s, id)
    ensures Abandoned(s, id)
  {
    StoredIsWellFormed(s, id);
  }

  lemma UnattendedStays(s: Sys, e: Effect, id: string)
    requires Good(s, e) && Abandoned(s, id)
    ensures Unattended(Effected(s, e), id)
  {
    var s' := Effected(s, e);
    forall w | w in s'.workers ensures !s'.workers[w].On(id) { HeldElsewhere(s, e, w, id); }
    match e
    case Settles(_, _, _, _, _, _) => SettledStore(s, e);
    case Takes(_, _) => if s.queue != [] { TakenStore(s, e); }
    case _ => QueueIsKept(s, e);
  }

  lemma HeldElsewhere(s: Sys, e: Effect, w: nat, id: string)
    requires Good(s, e) && Abandoned(s, id) && w in Effected(s, e).workers
    ensures !Effected(s, e).workers[w].On(id)
  {
    HeldFrom(s, e, w);
    if e.Takes? && s.queue != [] { TakenStore(s, e); }
    if e.Works? && w == e.w && s.workers[w].Got? && e.work.Copy() { StoredIsWellFormed(s, s.workers[w].id); }
    if (e.Works? || e.Writes?) && w == e.w && s.workers[w].Copy() { assert !s.workers[w].On(id); }
  }

  /** What an effect may do to an abandoned job: nothing, fail it, or delete it. */
  lemma AbandonedStored(s: Sys, e: Effect, id: string)
    requires Good(s, e) && Abandoned(s, id) && id in Effected(s, e).jobs
    ensures id in s.jobs && Past(Effected(s, e).jobs[id])
    ensures Effected(s, e).jobs[id] == s.jobs[id]
      || (e.Settles? && e.before.jobId == id && Effected(s, e).jobs[id].state.Failed?)
  {
    StoredFrom(s, e, id);
    match e
    case Settles(before, _, _, _, _, _) => StoredIsWellFormed(s, before.jobId);
    case Writes(w, _, _) =>
      HeldIsWellFormed(s, w);
      assert !s.workers[w].On(id);
      WrittenJobs(s, e);
    case _ =>
  }

  lemma AbandonedEffect(s: Sys, e: Effect, id: string)
    requires Good(s, e) && Abandoned(s, id)
    ensures Abandoned(Effected(s, e), id)
  {
    UnattendedStays(s, e, id);
    if id in Effected(s, e).jobs { AbandonedStored(s, e, id); }
    UsedGrows(s, e);
  }

  lemma UsedGrows(s: Sys, e: Effect)
    ensures s.used <= Effected(s, e).used
  {
  }

  /**
   One step on from a stranded job: not queued, not held; unchanged but for a callback that
   resolves to it and is written, which fails it; gone exactly by its deletion.
   */
  lemma {:induction false} StrandedStep(run: seq<Move>, cfg: Config, step: Step, id: string)
    requires Possible(run) && Fresh(After(run), step) && Stranded(After(run), id)
    ensures
      var (s, s') := (After(run), Next(cfg, After(run), step));
      && Unattended(s', id)
      && (id !in s'.jobs <==> step.DeleteJob? && step.id == id && step.deleted)
      && (id in s'.jobs ==>
            if Resolves(s, step, id) && step.save.Written() then s'.jobs[id].state.Failed?
            else s'.jobs[id] == s.jobs[id])
  {
    var s := After(run);
    AlwaysShaped(run);
    AlwaysOnce(run);
    GoodStep(cfg, s, step);
    StrandedIsAbandoned(s, id);
    UnattendedStays(s, EffectOf(cfg, s, step), id);
    StrandedMoves(cfg, s, step, id);
  }

  lemma StrandedMoves(cfg: Config, s: Sys, step: Step, id: string)
    requires Stranded(s, id) && Abandoned(s, id) && Good(s, EffectOf(cfg, s, step))
    ensures
      var s' := Next(cfg, s, step);
      && (id !in s'.jobs <==> step.DeleteJob? && step.id == id && step.deleted)
      && (id in s'.jobs ==>
            if Resolves(s, step, id) && step.save.Written() then s'.jobs[id].state.Failed?
            else s'.jobs[id] == s.jobs[id])
  {
    var e := EffectOf(cfg, s, step);
    DeletedIff(cfg, s, step, id);
    if id in Effected(s, e).jobs {
      AbandonedStored(s, e, id);
      StoredIsWellFormed(s, id);
      if Resolves(s, step, id) {
        CalledBackMovesOn(s.jobs[id], step.declined, step.ans);
        SettledJobs(s, e);
      } else {
        NotSettled(cfg, s, step, id);
      }
    }
  }

  lemma DeletedIff(cfg: Config, s: Sys, step: Step, id: string)
    requires id in s.jobs
    ensures id !in Next(cfg, s, step).jobs <==> step.DeleteJob? && step.id == id && step.deleted
  {
    var e := EffectOf(cfg, s, step);
    match e
    case Settles(_, _, _, _, _, _) => SettledJobs(s, e);
    case Writes(_, _, _) => WrittenJobs(s, e);
    case Creates(_, _, _) =>
    case Deletes(_, _, _) =>
    case _ => OtherJobs(s, e);
  }

  lemma NotSettled(cfg: Config, s: Sys, step: Step, id: string)
    requires Shaped(s) && !Resolves(s, step, id) && id in s.jobs && s.jobs[id].state.Workable()
    ensures var e := EffectOf(cfg, s, step); e.Settles? ==> e.before.jobId != id
  {
    if step.Callback? && step.state in s.index && s.index[step.state] in s.jobs {
      StoredIsWellFormed(s, s.index[step.state]);
    }
    if step.SubmitSignatures? && step.id in s.jobs { StoredIsWellFormed(s, step.id); }
  }

  /** From then on, in every run: never queued again, never with a worker, and never READY. */
  lemma {:induction false} StrandedForever(run: seq<Move>, k: nat, id: string)
    requires Possible(run) && k <= |run| && Stranded(After(run[..k]), id)
    ensures Abandoned(After(run), id)
    ensures id in After(run).jobs ==>
      After(run).jobs[id] == After(run[..k]).jobs[id] || After(run).jobs[id].state.Failed?
  {
    AlwaysShaped(run);
    AlwaysOnce(run);
    if k == |run| {
      assert run[..k] == run;
      StrandedIsAbandoned(After(run), id);
    } else {
      var (init, m) := (run[..|run| - 1], run[|run| - 1]);
      var s := After(init);
      var e := EffectOf(m.cfg, s, m.step);
      PossiblePrefix(run);
      assert init[..k] == run[..k];
      StrandedForever(init, k, id);
      AlwaysShaped(init);
      AlwaysOnce(init);
      GoodStep(m.cfg, s, m.step);
      AbandonedEffect(s, e, id);
      if id in After(run).jobs { AbandonedStored(s, e, id); }
    }
  }

  // ---- Running an id again ----

  /** The calls would sign or finalize the job a second time. */
  ghost predicate Repeats(log: seq<Event>, calls: seq<Event>, id: string) {
    Calls(log + calls, SignKind, id) > 1 || Calls(log + calls, FinalizeKind, id) > 1
  }

  /** What must hold of the stored job and the log for running the job to repeat nothing. */
  ghost predicate Safe(log: seq<Event>, j: Job) {
    match j.state
    case Signing => Calls(log, SignKind, j.jobId) == 0
    case Finalizing => Calls(log, FinalizeKind, j.jobId) == 0 || Entries(j.documents).None?
    case _ => true
  }

  lemma {:induction false} CalledIsPresent(log: seq<Event>, kind: Kind, id: string) returns (e: Event)
    requires Calls(log, kind, id) >= 1
    ensures e in log && KindOf(e) == kind && Subject(e) == id
  {
    var last := log[|log| - 1];
    if KindOf(last) == kind && Subject(last) == id {
      e := last;
    } else {
      e := CalledIsPresent(log[..|log| - 1], kind, id);
    }
  }

  /** A remote job that was finalized had been signed. */
  lemma {:induction false} FinalizedWasSigned(run: seq<Move>, id: string)
    requires Possible(run) && id in After(run).jobs && !After(run).jobs[id].flow.IsClientSide()
    requires Calls(After(run).log, FinalizeKind, id) >= 1
    ensures Calls(After(run).log, SignKind, id) >= 1
  {
    var s := After(run);
    var e := CalledIsPresent(s.log, FinalizeKind, id);
    AlwaysShaped(run);
    AlwaysOwned(run);
    StoredIsWellFormed(s, id);
    EvidenceIsSound(run, e);
    assert Recorded(s, e.job) && Known(s, e.job);
    FinalizeIsPaired(run, e, 0);
    var g :| g in s.log && SignedBy(e.job, g);
    UncalledIsAbsent(s.log, g);
  }

  lemma FinalizeCount(cfg: Config, j: Job, taken: bool)
    ensures
      var events := Finalized(cfg, j, taken).events;
      && Calls(events, SignKind, j.jobId) == 0 && Calls(events, FinalizeKind, j.jobId) <= 1
      && (Entries(j.documents).None? ==> Calls(events, FinalizeKind, j.jobId) == 0)
  {
    FinalizingCalls(cfg, j, taken);
    FinalizeTally(Finalized(cfg, j, taken).events, j.jobId, j.jobId);
    if Entries(j.documents).None? {
      var events := Finalized(cfg, j, taken).events;
      assert events == [events[0]];
      OneCall(events[0], FinalizeKind, j.jobId);
    }
  }

  lemma SignCount(j: Job, r: RunAnswers)
    ensures
      var o := SignOutcome(j, r);
      Calls(o.events, SignKind, j.jobId) <= 1 && Calls(o.events, FinalizeKind, j.jobId) == 0 && o.job.jobId == j.jobId
  {
    SigningCalls(j, r.sign);
    SignTally(Sign(j, r.sign).events, j.jobId, j.jobId);
    if j.flow.EidScan? {
      var o := Sign(j, r.sign);
      SigningCalls(o.job, r.device);
      SignTally(PushDevice(o.job, r.device).events, j.jobId, j.jobId);
      assert o.events + PushDevice(o.job, r.device).events == PushDevice(o.job, r.device).events;
    }
  }

  /** RunJob signs at most once, and only from SIGNING; it finalizes at most once. */
  lemma RunCount(cfg: Config, j: Job, r: RunAnswers)
    ensures
      var calls := RunCalls(cfg, j, r);
      && Calls(calls, SignKind, j.jobId) <= (if j.state.Signing? then 1 else 0)
      && Calls(calls, FinalizeKind, j.jobId) <= (if j.state.Workable() then 1 else 0)
      && (j.state.Finalizing? && Entries(j.documents).None? ==> Calls(calls, FinalizeKind, j.jobId) == 0)
  {
    if j.state.Signing? {
      var o := SignOutcome(j, r);
      SignCount(j, r);
      var more := if o.ok then Finalized(cfg, Transitioned(o.job, Finalizing), r.taken).events else [];
      FinalizeCount(cfg, Transitioned(o.job, Finalizing), r.taken);
      CallsConcat(o.events, more, SignKind, j.jobId);
      CallsConcat(o.events, more, FinalizeKind, j.jobId);
    } else if j.state.Finalizing? {
      FinalizeCount(cfg, j, r.taken);
    }
  }

  /** Answers under which a job stored SIGNING does call its signer. */
  lemma SignerIsCalled(j: Job) returns (r: RunAnswers)
    requires WellFormed(j) && j.state.Signing? && (j.flow.IsCsc() ==> Digests(j.documents).Some?)
    ensures Calls(SignOutcome(j, r).events, SignKind, j.jobId) == 1 && !SignOutcome(j, r).ok
  {
    var ans := SignAnswers(true, None, [], None, Some(""), None);
    r := RunAnswers(true, ans, Saved, ans, Saved, false, Saved);
    var events := SignOutcome(j, r).events;
    var o := Sign(j, ans);
    if j.flow.EidScan? {
      assert o.events == [] && o.ok && |o.job.documents| == 1;
      assert [] + PushDevice(o.job, ans).events == PushDevice(o.job, ans).events;
    } else if j.flow.IsCsc() {
      assert Checks(j, Digests(j.documents).value, [], []) == [];
    }
    assert events == [events[0]] && KindOf(events[0]) == SignKind && Subject(events[0]) == j.jobId;
    OneCall(events[0], SignKind, j.jobId);
  }

  /** A configuration under which a job whose values normalize does send its finalize request. */
  lemma FinalizeIsSent(j: Job) returns (cfg: Config)
    requires Entries(j.documents).Some?
    ensures Calls(Finalized(cfg, j, false).events, FinalizeKind, j.jobId) == 1
  {
    cfg := Config("x", FlowSet(true, {}), false, false);
    assert TrimLeft("x") == "x" && TrimRight("x") == "x";
    SentFinalize(cfg, j);
  }

  lemma SentFinalize(cfg: Config, j: Job)
    requires Entries(j.documents).Some? && CertificateFor(cfg, j.flow, j.authCert).Available()
    ensures Calls(Finalized(cfg, j, false).events, FinalizeKind, j.jobId) == 1
  {
    var events := Finalized(cfg, j, false).events;
    var (first, last) := (events[0], events[1]);
    assert first.Requested? && last.Finalize? && Subject(last) == j.jobId && events == [first] + [last];
    FinalizeLast(first, last, j.jobId);
  }

  lemma {:induction false} FinalizeLast(first: Event, last: Event, id: string)
    requires first.Requested? && last.Finalize? && Subject(last) == id
    ensures Calls([first] + [last], FinalizeKind, id) == 1
  {
    CallsConcat([first], [last], FinalizeKind, id);
    OneCall(first, FinalizeKind, id);
    OneCall(last, FinalizeKind, id);
  }

  lemma UnsafeRepeats(log: seq<Event>, j: Job) returns (cfg: Config, r: RunAnswers)
    requires WellFormed(j) && Sound(j, log) && !Safe(log, j)
    ensures Repeats(log, RunCalls(cfg, j, r), j.jobId)
  {
    var none := SignAnswers(false, None, [], None, None, None);
    if j.state.Signing? {
      cfg := CONFIG;
      r := SignerIsCalled(j);
      assert SignOutcome(j, r).events + [] == SignOutcome(j, r).events;
      CallsConcat(log, RunCalls(cfg, j, r), SignKind, j.jobId);
    } else {
      r := RunAnswers(true, none, Saved, none, Saved, false, Saved);
      cfg := FinalizeIsSent(j);
      CallsConcat(log, RunCalls(cfg, j, r), FinalizeKind, j.jobId);
    }
  }

  lemma {:induction false} SafeRepeatsNothing(log: seq<Event>, cfg: Config, j: Job, r: RunAnswers)
    requires Safe(log, j) && Calls(log, SignKind, j.jobId) <= 1 && Calls(log, FinalizeKind, j.jobId) <= 1
    requires j.state.Signing? && Calls(log, SignKind, j.jobId) == 0 ==> Calls(log, FinalizeKind, j.jobId) == 0
    ensures !Repeats(log, RunCalls(cfg, j, r), j.jobId)
  {
    RunCount(cfg, j, r);
    CallsConcat(log, RunCalls(cfg, j, r), SignKind, j.jobId);
    CallsConcat(log, RunCalls(cfg, j, r), FinalizeKind, j.jobId);
  }

  /**
   Running a stored job again repeats no signing and no finalize call, whatever is answered and
   configured, if and only if: it is SIGNING and was never signed, or FINALIZING and was never
   finalized or has a value that is no signature, or is in neither state.
   */
  lemma {:induction false} RerunIsSafeIff(run: seq<Move>, id: string)
    requires Possible(run) && id in After(run).jobs
    ensures
      var (log, j) := (After(run).log, After(run).jobs[id]);
      (forall cfg, r :: !Repeats(log, RunCalls(cfg, j, r), id)) <==> Safe(log, j)
  {
    var (log, j) := (After(run).log, After(run).jobs[id]);
    AlwaysShaped(run);
    AlwaysSound(run);
    StoredIsWellFormed(After(run), id);
    SignedAndFinalizedAtMostOnce(run, id);
    if Safe(log, j) {
      if j.state.Signing? && Calls(log, FinalizeKind, id) >= 1 { FinalizedWasSigned(run, id); }
      forall cfg, r ensures !Repeats(log, RunCalls(cfg, j, r), id) { SafeRepeatsNothing(log, cfg, j, r); }
    } else {
      var cfg, r := UnsafeRepeats(log, j);
    }
  }

  lemma SignedByServer(s: Sys, j: Job, ans: SignAnswers)
    requires Holds(s, j, [], ToSign(j))
    ensures
      var (s', o) := (Next(CONFIG, s, WorkerSign(0, ans)), SignServer(j, ans));
      s' == s.(log := s.log + o.events, workers := s.workers[0 := AfterSign(o)])
  {
  }

  lemma Crashed(s: Sys, w: nat)
    requires w in s.workers
    ensures Next(CONFIG, s, WorkerCrash(w)) == s.(workers := s.workers[w := Idle])
  {
    assert s.log + [] == s.log;
  }

  lemma SignedThenCrashed(s: Sys, j: Job, ans: SignAnswers)
    requires Once(s) && Holds(s, j, [], ToSign(j)) && j.state.Signing?
    ensures
      var s' := Next(CONFIG, Next(CONFIG, s, WorkerSign(0, ans)), WorkerCrash(0));
      Stranded(s', "j") && s'.jobs["j"] == j && !Safe(s'.log, j)
  {
    var o := SignServer(j, ans);
    SignedByServer(s, j, ans);
    Crashed(s.(log := s.log + o.events, workers := s.workers[0 := AfterSign(o)]), 0);
    assert s.workers[0 := AfterSign(o)][0 := Idle] == s.workers[0 := Idle];
    SignedAndLost(s, s.(log := s.log + o.events, workers := s.workers[0 := Idle]), j, o.events[0]);
  }

  lemma SignedAndLost(s: Sys, s': Sys, j: Job, e: Event)
    requires Once(s) && Holds(s, j, [], ToSign(j)) && j.state.Signing?
    requires s'.jobs == s.jobs && s'.queue == s.queue && s'.workers == s.workers[0 := Idle]
    requires e in s'.log && KindOf(e) == SignKind && Subject(e) == "j"
    ensures Stranded(s', "j") && !Safe(s'.log, j)
  {
    assert OnceFor(s, "j") && s.workers[0].On("j");
    UncalledIsAbsent(s'.log, e);
  }

  /** A run that leaves a job which it is not safe to run again: the worker crashed once the signer had been called. */
  lemma RerunCanRepeat() returns (run: seq<Move>)
    ensures Possible(run) && Stranded(After(run), "j") && !Safe(After(run).log, After(run).jobs["j"])
  {
    var run1, j := OneSigning();
    var ans := SignAnswers(true, None, [], Some(["v"]), None, None);
    AlwaysOnce(run1);
    SignedThenCrashed(After(run1), j, ans);
    var run2 := Extends(run1, WorkerSign(0, ans));
    run := Extends(run2, WorkerCrash(0));
  }
}
