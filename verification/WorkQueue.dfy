/**
 The work queue. When nothing is lost, a job stored as SIGNING or FINALIZING is in the queue
 exactly once or in the hands of exactly one worker; however the workers are scheduled, and
 whatever they lose, they finish within a number of steps fixed by the queue, and then no such
 job is left.
 */
module WorkQueue {
  import opened Wrappers
  import opened Jobs
  import opened Upstream
  import opened AuthCert
  import opened Flows
  import opened Machine
  import opened Copies
  import opened Shape
  import opened AtMostOnce
  import opened StateIndex
  import opened Lifecycle

  // ---- Runs in which nothing is lost ----

  /** Nothing is lost and no worker crashes. */
  predicate Faultless(step: Step) {
    match step
    case Prepare(_, _, _, save) => save.Saved?
    case Callback(_, _, _, cleared, save, pushed) => cleared && save.Saved? && pushed
    case SubmitSignatures(_, _, save, pushed) => save.Saved? && pushed
    case DeleteJob(_, unindexed, deleted) => unindexed && deleted
    case WorkerDequeue(_, lost) => !lost
    case WorkerLoad(_, loaded) => loaded
    case WorkerPublish(_, save) => save.Saved?
    case WorkerSave(_, save) => save.Saved?
    case WorkerCrash(_) => false
    case _ => true
  }

  ghost predicate Smooth(run: seq<Move>) {
    forall k :: 0 <= k < |run| ==> Faultless(run[k].step)
  }

  // ---- Who has the job ----

  /** A stored job a worker must still act on was enqueued, and once dequeued is in a worker's hands. */
  ghost predicate Tended(s: Sys, id: string) {
    id in s.jobs && s.jobs[id].state.Workable() ==>
      && Calls(s.log, EnqueueKind, id) == 1
      && (Calls(s.log, DequeueKind, id) == 1 ==> exists w :: w in s.workers && s.workers[w].On(id))
  }

  /** The effect drops no job that still needs a worker. */
  ghost predicate Dutiful(s: Sys, e: Effect) {
    match e
    case Creates(j, _, save) => !j.state.Workable()
    case Settles(_, after, _, _, save, enqueued) =>
      save.Saved? && (after.state.Workable() ==> enqueued || after.state == e.before.state)
    case Takes(_, lost) => !lost
    case Works(w, _, work) =>
      forall id :: s.WorkOf(w).On(id) && !work.On(id) && id in s.jobs ==> !s.jobs[id].state.Workable()
    case Writes(w, save, work) =>
      save.Saved? && s.WorkOf(w).Copy() && (work.On(s.WorkOf(w).job.jobId) || s.WorkOf(w).job.state.Terminal())
    case _ => true
  }

  lemma BegunIsNotWorkable(id: string, input: PrepareInput, ans: Answers)
    requires input.flow.Registered() && ValidBatch(input)
    ensures !Prepared(id, input, ans).job.state.Workable()
  {
    var c := CreateSessions(NewJob(id, input), ans.sessions).job;
    CreatedIsDrafted(id, input, ans.sessions);
    if input.flow.IsClientSide() {
      CalculatedIsAlike(c.(signingCert := input.signingCert, authCert := input.authCert), input.signingCert,
                        ans.digests);
    } else if !input.flow.IsCsc() {
      BeginConsentIsAlike(c, ans.digests, ans.state);
      var j1 :=
        c.(signIdentityId := input.signIdentityId, signingCert := input.signingCert, authCert := input.authCert);
      BeginConsentIsAlike(j1, ans.digests, ans.state);
    }
  }

  lemma CalledBackIsDutiful(j: Job, declined: bool, ans: Answers)
    requires WellFormed(j)
    ensures
      var a := CalledBack(j, declined, ans);
      a.job.state.Workable() ==> a.verdict.Done? || a.job.state == j.state
  {
    CallbackAdvances(j, ans);
  }

  lemma HandlerIsDutiful(cfg: Config, s: Sys, step: Step)
    requires Shaped(s) && Faultless(step) && (step.Prepare? || step.Callback? || step.SubmitSignatures?)
    ensures Dutiful(s, EffectOf(cfg, s, step))
  {
    match step
    case Prepare(id, input, ans, _) => if Admitted(cfg, input) { BegunIsNotWorkable(id, input, ans); }
    case Callback(state, declined, ans, _, _, _) =>
      if state in s.index && s.index[state] in s.jobs {
        StoredIsWellFormed(s, s.index[state]);
        CalledBackIsDutiful(s.jobs[s.index[state]], declined, ans);
      }
    case _ =>
  }

  lemma WorkerIsDutiful(cfg: Config, s: Sys, step: Step)
    requires Shaped(s) && Faultless(step) && !step.Prepare? && !step.Callback? && !step.SubmitSignatures?
    ensures Dutiful(s, EffectOf(cfg, s, step))
  {
    EffectIsLegal(cfg, s, step);
    EffectIsOrderly(cfg, s, step);
    var e := EffectOf(cfg, s, step);
    if e.Works? && s.WorkOf(e.w).Got? && s.WorkOf(e.w).id in s.jobs { StoredIsWellFormed(s, s.WorkOf(e.w).id); }
    if e.Writes? { HeldIsWellFormed(s, e.w); }
  }

  lemma TendedHandler(s: Sys, e: Effect, id: string)
    requires Good(s, e) && Dutiful(s, e) && (e.Creates? || e.Settles?) && Tended(s, id)
    ensures Tended(Effected(s, e), id)
  {
    var s' := Effected(s, e);
    OnceForEffect(s, e, id);
    assert OnceFor(s, id);
    LogGrows(s, e);
    CallsConcat(s.log, Made(s, e), EnqueueKind, id);
    CallsConcat(s.log, Made(s, e), DequeueKind, id);
    if e.Settles? {
      SettledStore(s, e);
      if e.enqueued {
        EnqueueTally(e.events, e.before.jobId, e.after, id);
        } else { PreliminaryTally(e.events, e.before.jobId, id);
      }
    } else {
      PreliminaryTally(e.events, e.job.jobId, id);
    }
  }

  lemma TendedTakes(s: Sys, e: Effect, id: string)
    requires Good(s, e) && Dutiful(s, e) && e.Takes? && Tended(s, id)
    ensures Tended(Effected(s, e), id)
  {
    var s' := Effected(s, e);
    OnceForEffect(s, e, id);
    assert OnceFor(s, id);
    LogGrows(s, e);
    CallsConcat(s.log, Made(s, e), EnqueueKind, id);
    CallsConcat(s.log, Made(s, e), DequeueKind, id);
    if s.queue != [] {
      OneCall(Dequeue(s.queue[0]), EnqueueKind, id);
      OneCall(Dequeue(s.queue[0]), DequeueKind, id);
      if s.queue[0] == id { assert s'.workers[e.w].On(id); } else { OthersStay(s, s', e.w, id); }
    }
  }

  lemma OthersStay(s: Sys, s': Sys, w: nat, id: string)
    requires forall v :: v in s.workers && v != w ==> v in s'.workers && s'.workers[v] == s.workers[v]
    requires s.WorkOf(w).On(id) ==> w in s'.workers && s'.workers[w].On(id)
    ensures (exists v :: v in s.workers && s.workers[v].On(id)) ==> exists v :: v in s'.workers && s'.workers[v].On(id)
  {
    if v :| v in s.workers && s.workers[v].On(id) { assert s'.workers[v].On(id); }
  }

  lemma TendedWorks(s: Sys, e: Effect, id: string)
    requires Good(s, e) && Dutiful(s, e) && e.Works? && Tended(s, id)
    ensures Tended(Effected(s, e), id)
  {
    var s' := Effected(s, e);
    assert s'.jobs == s.jobs && s'.workers == s.workers[e.w := e.work];
    OnceForEffect(s, e, id);
    assert OnceFor(s, id);
    LogGrows(s, e);
    CallsConcat(s.log, e.events, EnqueueKind, id);
    CallsConcat(s.log, e.events, DequeueKind, id);
    if id in s.jobs && s.jobs[id].state.Workable() { OthersStay(s, s', e.w, id); }
  }

  lemma TendedWrites(s: Sys, e: Effect, id: string)
    requires Good(s, e) && Dutiful(s, e) && e.Writes? && Tended(s, id)
    ensures Tended(Effected(s, e), id)
  {
    var s', j := Effected(s, e), s.WorkOf(e.w).job;
    assert s'.jobs == s.jobs[j.jobId := j] && s'.workers == s.workers[e.w := e.work] && s'.log == s.log;
    assert OnceFor(s, id);
    if id == j.jobId {
      assert s.workers[e.w].On(id);
      if e.work.On(id) { assert s'.workers[e.w].On(id); }
    } else {
      OthersStay(s, s', e.w, id);
    }
  }

  lemma TendedEffect(s: Sys, e: Effect, id: string)
    requires Good(s, e) && Dutiful(s, e) && Tended(s, id)
    ensures Tended(Effected(s, e), id)
  {
    match e
    case Creates(_, _, _) => TendedHandler(s, e, id);
    case Settles(_, _, _, _, _, _) => TendedHandler(s, e, id);
    case Takes(_, _) => TendedTakes(s, e, id);
    case Works(_, _, _) => TendedWorks(s, e, id);
    case Writes(_, _, _) => TendedWrites(s, e, id);
    case Records(_, _) =>
      OnceForEffect(s, e, id);
      CallsConcat(s.log, e.events, EnqueueKind, id);
      CallsConcat(s.log, e.events, DequeueKind, id);
      PreliminaryTally(e.events, e.id, id);
    case _ =>
  }

  lemma {:induction false} AlwaysTended(run: seq<Move>, id: string)
    requires Possible(run) && Smooth(run)
    ensures Tended(After(run), id)
  {
    if run != [] {
      var (init, m) := (run[..|run| - 1], run[|run| - 1]);
      var s := After(init);
      PossiblePrefix(run);
      assert forall k :: 0 <= k < |init| ==> init[k] == run[k];
      AlwaysTended(init, id);
      AlwaysShaped(init);
      AlwaysOnce(init);
      GoodStep(m.cfg, s, m.step);
      if m.step.Prepare? || m.step.Callback? || m.step.SubmitSignatures? {
        HandlerIsDutiful(m.cfg, s, m.step);
      } else {
        WorkerIsDutiful(m.cfg, s, m.step);
      }
      TendedEffect(s, EffectOf(m.cfg, s, m.step), id);
    }
  }

  ghost predicate OnlyOn(s: Sys, w: nat, id: string) {
    w in s.workers && s.workers[w].On(id) && forall v :: v in s.workers && s.workers[v].On(id) ==> v == w
  }

  /**
   A job stored as SIGNING or FINALIZING is queued exactly once, or in the hands of exactly one
   worker, never both.
   */
  lemma {:induction false} WorkableIsQueuedOnce(run: seq<Move>, id: string)
    requires Possible(run) && Smooth(run) && id in After(run).jobs && After(run).jobs[id].state.Workable()
    ensures
      var s := After(run);
      || (multiset(s.queue)[id] == 1 && forall w :: w in s.workers ==> !s.workers[w].On(id))
      || (multiset(s.queue)[id] == 0 && exists w :: OnlyOn(s, w, id))
  {
    var s := After(run);
    AlwaysTended(run, id);
    AlwaysOnce(run);
    assert OnceFor(s, id);
    if w :| w in s.workers && s.workers[w].On(id) { assert OnlyOn(s, w, id); }
  }

  // ---- The workers finish ----

  /** Nothing is queued and every worker is idle. */
  ghost predicate Quiet(s: Sys) {
    s.queue == [] && forall w :: w in s.workers ==> s.workers[w].Idle?
  }

  /** When the workers are done, no job is left for one, and every job ever enqueued is READY or FAILED. */
  lemma {:induction false} QuietIsFinished(run: seq<Move>, id: string)
    requires Possible(run) && Smooth(run) && Quiet(After(run)) && id in After(run).jobs
    ensures !After(run).jobs[id].state.Workable()
    ensures Calls(After(run).log, EnqueueKind, id) == 1 ==> After(run).jobs[id].state.Terminal()
  {
    var s := After(run);
    if s.jobs[id].state.Workable() {
      WorkableIsQueuedOnce(run, id);
      assert false;
    }
    AlwaysOnce(run);
    AlwaysShaped(run);
    StoredIsWellFormed(s, id);
    assert OnceFor(s, id);
  }

  predicate IsWorkerStep(step: Step) {
    !step.Prepare? && !step.Callback? && !step.SubmitSignatures? && !step.DeleteJob? && !step.ArchiveJobDocument?
  }

  /** A worker that can take the step: it is where the step starts. */
  predicate CanTake(s: Sys, step: Step)
    requires IsWorkerStep(step)
  {
    var work := s.WorkOf(step.w);
    match step
    case WorkerDequeue(_, _) => work.Idle? && s.queue != []
    case WorkerLoad(_, _) => work.Got?
    case WorkerSign(_, _) => work.ToSign?
    case WorkerPublish(_, _) => work.ToPublish?
    case WorkerPush(_, _) => work.ToPush?
    case WorkerSave(_, _) => work.ToSave?
    case WorkerFinalize(_, _) => work.ToFinalize?
    case _ => !work.Idle?
  }

  /** How many steps a worker may still take with what it has. */
  function Rank(work: Work): nat {
    match work
    case Idle => 0
    case Got(_) => 7
    case ToSign(_) => 6
    case ToPublish(_) => 5
    case ToPush(_) => 4
    case ToSave(_, more) => if more then 3 else 1
    case ToFinalize(_) => 2
  }

  function Ranks(s: Sys, n: nat): nat {
    if n == 0 then 0 else Ranks(s, n - 1) + Rank(s.WorkOf(n - 1))
  }

  /** What n workers have before them, the queue included. */
  function Backlog(s: Sys, n: nat): nat {
    8 * |s.queue| + Ranks(s, n)
  }

  lemma {:induction false} RanksChange(s: Sys, s': Sys, w: nat, n: nat)
    requires forall v: nat :: v != w ==> s'.WorkOf(v) == s.WorkOf(v)
    ensures Ranks(s', n) + (if w < n then Rank(s.WorkOf(w)) else 0)
      == Ranks(s, n) + (if w < n then Rank(s'.WorkOf(w)) else 0)
  {
    if n > 0 { RanksChange(s, s', w, n - 1); }
  }

  /** The step takes a queued id, or takes its worker a place further. */
  lemma RankDrops(cfg: Config, s: Sys, step: Step)
    requires IsWorkerStep(step) && CanTake(s, step)
    ensures
      var e := EffectOf(cfg, s, step);
      if step.WorkerDequeue? then e == Takes(step.w, step.lost) && s.WorkOf(step.w).Idle? && s.queue != []
      else (e.Works? || e.Writes?) && e.w == step.w && Rank(e.work) < Rank(s.WorkOf(step.w))
  {
  }

  lemma BacklogEffect(s: Sys, e: Effect, n: nat)
    requires e.Takes? || e.Works? || e.Writes?
    requires if e.Takes? then s.WorkOf(e.w).Idle? && s.queue != [] else Rank(e.work) < Rank(s.WorkOf(e.w))
    requires e.w < n
    ensures Backlog(Effected(s, e), n) < Backlog(s, n)
  {
    var s' := Effected(s, e);
    assert s'.workers == s.workers[e.w := s'.WorkOf(e.w)];
    RanksChange(s, s', e.w, n);
  }

  /** Every step a worker can take, whatever is lost on the way, leaves less before the workers. */
  lemma BacklogShrinks(cfg: Config, s: Sys, step: Step, n: nat)
    requires IsWorkerStep(step) && CanTake(s, step) && step.w < n
    ensures Backlog(Next(cfg, s, step), n) < Backlog(s, n)
  {
    RankDrops(cfg, s, step);
    BacklogEffect(s, EffectOf(cfg, s, step), n);
  }

  /** The moves after the first k are all steps that one of n workers can take. */
  ghost predicate Draining(run: seq<Move>, k: nat, n: nat) {
    && k <= |run|
    && forall i :: k <= i < |run| ==>
      IsWorkerStep(run[i].step) && run[i].step.w < n && CanTake(After(run[..i]), run[i].step)
  }

  /**
   However n workers are scheduled, and whatever they lose, they take no more steps than the backlog
   they started with.
   */
  lemma {:induction false} DrainingEnds(run: seq<Move>, k: nat, n: nat)
    requires Draining(run, k, n)
    ensures |run| - k + Backlog(After(run), n) <= Backlog(After(run[..k]), n)
  {
    if |run| == k {
      assert run[..k] == run;
    } else {
      var (init, m) := (run[..|run| - 1], run[|run| - 1]);
      assert init[..k] == run[..k];
      assert forall i :: k <= i < |init| ==> init[..i] == run[..i] && init[i] == run[i];
      DrainingEnds(init, k, n);
      BacklogShrinks(m.cfg, After(init), m.step, n);
    }
  }

  /** And they stop only when there is nothing left: until then some worker can take a step that loses nothing. */
  lemma SomeoneCanWork(s: Sys, w: nat) returns (step: Step)
    requires s.WorkOf(w) != Idle || s.queue != []
    ensures IsWorkerStep(step) && step.w == w && CanTake(s, step) && Faultless(step)
  {
    var none := SignAnswers(false, None, [], None, None, None);
    match s.WorkOf(w)
    case Idle => step := WorkerDequeue(w, false);
    case Got(_) => step := WorkerLoad(w, true);
    case ToSign(_) => step := WorkerSign(w, none);
    case ToPublish(_) => step := WorkerPublish(w, Saved);
    case ToPush(_) => step := WorkerPush(w, none);
    case ToSave(_, _) => step := WorkerSave(w, Saved);
    case ToFinalize(_) => step := WorkerFinalize(w, false);
  }

  /** So n workers that lose nothing and go on for as long as they can leave no job that needs one. */
  lemma {:induction false} DrainedIsFinished(run: seq<Move>, n: nat, id: string)
    requires Possible(run) && Smooth(run) && n > 0 && (forall w :: w in After(run).workers ==> w < n)
    requires forall step :: IsWorkerStep(step) && step.w < n && Faultless(step) ==> !CanTake(After(run), step)
    requires id in After(run).jobs
    ensures Quiet(After(run)) && !After(run).jobs[id].state.Workable()
    ensures Calls(After(run).log, EnqueueKind, id) == 1 ==> After(run).jobs[id].state.Terminal()
  {
    var s := After(run);
    forall w | w in s.workers ensures s.workers[w].Idle? {
      if !s.workers[w].Idle? { var step := SomeoneCanWork(s, w); }
    }
    if s.queue != [] { var step := SomeoneCanWork(s, 0); }
    QuietIsFinished(run, id);
  }

  // ---- A job that has ended ----

  /** The job, if stored, is not for a worker, and no worker holds a copy of it from before. */
  ghost predicate Resting(s: Sys, id: string) {
    && (id in s.jobs ==> !s.jobs[id].state.Workable())
    && forall w :: w in s.workers && s.workers[w].Copy() ==> s.workers[w].job.jobId != id
  }

  ghost predicate SameStored(s: Sys, s': Sys, id: string) {
    (id in s'.jobs <==> id in s.jobs) && (id in s.jobs ==> s'.jobs[id] == s.jobs[id])
  }

  lemma WorkerEffect(cfg: Config, s: Sys, step: Step)
    requires IsWorkerStep(step)
    ensures var e := EffectOf(cfg, s, step); e.NoEffect? || e.Takes? || e.Works? || e.Writes?
  {
  }

  lemma RestingEffect(s: Sys, e: Effect, id: string)
    requires Good(s, e) && Resting(s, id) && (e.NoEffect? || e.Takes? || e.Works? || e.Writes?)
    ensures Resting(Effected(s, e), id) && SameStored(s, Effected(s, e), id)
    ensures forall c :: c in Made(s, e) && Subject(c) == id ==> c.Dequeue?
  {
    var s' := Effected(s, e);
    if e.Writes? { WrittenJobs(s, e); } else { OtherJobs(s, e); }
    forall w | w in s'.workers && s'.workers[w].Copy() ensures s'.workers[w].job.jobId != id {
      HeldFrom(s, e, w);
      if e.Works? && w == e.w && s.workers[w].Got? { StoredIsWellFormed(s, s.workers[w].id); }
    }
    forall c | c in Made(s, e) && Subject(c) == id ensures c.Dequeue? { RestingIsUnasked(s, e, id, c); }
  }

  lemma RestingIsUnasked(s: Sys, e: Effect, id: string, c: Event)
    requires Good(s, e) && Resting(s, id) && (e.NoEffect? || e.Takes? || e.Works? || e.Writes?) && c in Made(s, e)
    ensures Subject(c) == id ==> c.Dequeue?
  {
    if e.Works? { WorkerSubject(s, e, c); }
  }

  /**
   However the workers go on, an id that has ended, even one queued again, is only ever dequeued: no
   call is made for it, and what is stored stays as it is.
   */
  lemma {:induction false} EndedSendsNothing(run: seq<Move>, k: nat, id: string)
    requires Possible(run) && k <= |run| && Resting(After(run[..k]), id)
    requires forall i :: k <= i < |run| ==> IsWorkerStep(run[i].step)
    ensures Resting(After(run), id) && SameStored(After(run[..k]), After(run), id)
    ensures forall c :: c in After(run).log && Subject(c) == id ==> c in After(run[..k]).log || c.Dequeue?
  {
    if k == |run| {
      assert run[..k] == run;
    } else {
      var (init, m) := (run[..|run| - 1], run[|run| - 1]);
      var e := EffectOf(m.cfg, After(init), m.step);
      PossiblePrefix(run);
      assert init[..k] == run[..k];
      EndedSendsNothing(init, k, id);
      AlwaysShaped(init);
      AlwaysOnce(init);
      GoodStep(m.cfg, After(init), m.step);
      WorkerEffect(m.cfg, After(init), m.step);
      RestingEffect(After(init), e, id);
      LogGrows(After(init), e);
    }
  }
}
