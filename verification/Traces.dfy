/**
 A run of the machine as running code carries it: its moves, the state they lead to, and whether
 anything was lost. Each lemma extends it by one step and says, field by field, where that leads.
 */
module Traces {
  import opened Wrappers
  import opened Jobs
  import opened Upstream
  import opened AuthCert
  import opened Flows
  import opened Machine
  import opened Shape
  import opened StateIndex
  import opened WorkQueue

  datatype Trace = Trace(run: seq<Move>, sys: Sys, smooth: bool)

  /**
   The run is possible, leads to the state, and if so marked lost nothing. This is
   `Possible(trace.run) && After(trace.run) == trace.sys && ..`, but said of every run equal to
   trace.run: `After` is recursive, and with it in plain sight the verifier would replay the run's last
   step in every method that carries a trace. `Reached` gives the plain form.
   */
  ghost predicate Reaches(trace: Trace) {
    forall run :: run == trace.run ==> Possible(run) && After(run) == trace.sys && (trace.smooth ==> Smooth(run))
  }

  /** The trace goes on by one step to a state. */
  ghost predicate Onward(cfg: Config, t: Trace, step: Step, t': Trace) {
    Reaches(t') && t'.run == t.run + [Move(cfg, step)] && t'.smooth == (t.smooth && Faultless(step))
  }

  function Moves(cfg: Config, steps: seq<Step>): seq<Move> {
    seq(|steps|, i requires 0 <= i < |steps| => Move(cfg, steps[i]))
  }

  /** The trace has gone on by exactly these steps. */
  ghost predicate Gone(cfg: Config, t: Trace, steps: seq<Step>, t': Trace) {
    && Reaches(t')
    && forall run :: run == t.run ==>
         && t'.run == run + Moves(cfg, steps)
         && (t.smooth && (forall step :: step in steps ==> Faultless(step)) ==> t'.smooth)
  }

  lemma Reached(t: Trace)
    requires Reaches(t)
    ensures Possible(t.run) && After(t.run) == t.sys && (t.smooth ==> Smooth(t.run)) && Shaped(t.sys) && Owned(t.sys)
  {
    AlwaysShaped(t.run);
    AlwaysOwned(t.run);
  }

  lemma Stepped(cfg: Config, t: Trace, step: Step, e: Effect, s': Sys) returns (t': Trace)
    requires Reaches(t) && Fresh(t.sys, step) && e == EffectOf(cfg, t.sys, step) && s' == Effected(t.sys, e)
    ensures Onward(cfg, t, step, t') && t'.sys == s'
  {
    Reached(t);
    Extended(t.run, cfg, step);
    t' := Trace(t.run + [Move(cfg, step)], s', t.smooth && Faultless(step));
  }

  /** The store and the log are those of a machine state. */
  ghost predicate Same(s: Sys, jobs: map<string, Job>, index: map<string, string>, queue: seq<string>,
                       log: seq<Event>) {
    s.jobs == jobs && s.index == index && s.queue == queue && s.log == log
  }

  function SavedJobs(jobs: map<string, Job>, j: Job, save: Save): map<string, Job> {
    if save.Written() then jobs[j.jobId := j] else jobs
  }

  function SavedIndex(index: map<string, string>, j: Job, save: Save): map<string, string> {
    if save.Indexed() && j.oauthState != "" then index[j.oauthState := j.jobId] else index
  }

  // ---- Handlers ----

  lemma CreatesNext(s: Sys, e: Effect)
    requires e.Creates?
    ensures Same(Effected(s, e), SavedJobs(s.jobs, e.job, e.save), SavedIndex(s.index, e.job, e.save), s.queue,
                 s.log + e.events)
  {
  }

  lemma TookPrepare(cfg: Config, t: Trace, id: string, input: PrepareInput, ans: Answers, save: Save)
    returns (t': Trace)
    requires Reaches(t) && Fresh(t.sys, Prepare(id, input, ans, save))
    ensures Onward(cfg, t, Prepare(id, input, ans, save), t')
    ensures
      var (s, o) := (t.sys, Prepared(id, input, ans));
      if Admitted(cfg, input) then
        Same(t'.sys, SavedJobs(s.jobs, o.job, save), SavedIndex(s.index, o.job, save), s.queue, s.log + o.events)
      else t'.sys == s
  {
    var e := EffectOf(cfg, t.sys, Prepare(id, input, ans, save));
    if e.Creates? { CreatesNext(t.sys, e); }
    t' := Stepped(cfg, t, Prepare(id, input, ans, save), e, Effected(t.sys, e));
  }

  lemma SettlesNext(s: Sys, e: Effect)
    requires e.Settles?
    ensures Same(Effected(s, e), SavedJobs(s.jobs, e.after, e.save),
                 SavedIndex(if e.cleared.Some? then s.index - {e.cleared.value} else s.index, e.after, e.save),
                 if e.enqueued then s.queue + [e.after.jobId] else s.queue,
                 if e.enqueued then s.log + e.events + [Enqueue(e.after)] else s.log + e.events)
  {
  }

  lemma TookCallback(cfg: Config, t: Trace, state: string, declined: bool, ans: Answers, cleared: bool, save: Save,
                     pushed: bool)
    returns (t': Trace)
    requires Reaches(t) && Fresh(t.sys, Callback(state, declined, ans, cleared, save, pushed))
    ensures Onward(cfg, t, Callback(state, declined, ans, cleared, save, pushed), t') && "" !in t.sys.index
    ensures
      var s := t.sys;
      if state !in s.index || s.index[state] !in s.jobs then t'.sys == s
      else
        var a := CalledBack(s.jobs[s.index[state]], declined, ans);
        var enqueued := a.verdict.Done? && save.Saved? && pushed;
        Same(t'.sys, SavedJobs(s.jobs, a.job, save),
             SavedIndex(if cleared then s.index - {state} else s.index, a.job, save),
             if enqueued then s.queue + [a.job.jobId] else s.queue,
             if enqueued then s.log + a.events + [Enqueue(a.job)] else s.log + a.events)
  {
    var e := EffectOf(cfg, t.sys, Callback(state, declined, ans, cleared, save, pushed));
    if e.Settles? { SettlesNext(t.sys, e); }
    Reached(t);
    t' := Stepped(cfg, t, Callback(state, declined, ans, cleared, save, pushed), e, Effected(t.sys, e));
  }

  lemma TookSubmit(cfg: Config, t: Trace, id: string, sigs: seq<Submitted>, save: Save, pushed: bool)
    returns (t': Trace)
    requires Reaches(t)
    ensures Onward(cfg, t, SubmitSignatures(id, sigs, save, pushed), t')
    ensures
      var s := t.sys;
      if id !in s.jobs || Submit(cfg, s.jobs[id], sigs).None? then t'.sys == s
      else
        var j := Submit(cfg, s.jobs[id], sigs).value;
        var enqueued := save.Saved? && pushed;
        Same(t'.sys, SavedJobs(s.jobs, j, save), SavedIndex(s.index, j, save),
             if enqueued then s.queue + [j.jobId] else s.queue,
             if enqueued then s.log + [Enqueue(j)] else s.log)
  {
    var e := EffectOf(cfg, t.sys, SubmitSignatures(id, sigs, save, pushed));
    if e.Settles? { SettlesNext(t.sys, e); }
    assert t.sys.log + [] == t.sys.log;
    t' := Stepped(cfg, t, SubmitSignatures(id, sigs, save, pushed), e, Effected(t.sys, e));
  }

  lemma TookDelete(cfg: Config, t: Trace, id: string, unindexed: bool, deleted: bool) returns (t': Trace)
    requires Reaches(t)
    ensures Onward(cfg, t, DeleteJob(id, unindexed, deleted), t')
    ensures
      var s := t.sys;
      if id !in s.jobs then t'.sys == s
      else
        && s.jobs[id].jobId == id
        && Same(t'.sys, if deleted then s.jobs - {id} else s.jobs,
                if unindexed && s.jobs[id].oauthState != "" then s.index - {s.jobs[id].oauthState} else s.index,
                s.queue, s.log)
  {
    var e := Deletes(id, unindexed, deleted);
    Reached(t);
    t' := Stepped(cfg, t, DeleteJob(id, unindexed, deleted), e, Effected(t.sys, e));
  }

  lemma TookArchive(cfg: Config, t: Trace, id: string, documentId: string) returns (t': Trace)
    requires Reaches(t)
    ensures Onward(cfg, t, ArchiveJobDocument(id, documentId), t')
    ensures
      var s := t.sys;
      Same(t'.sys, s.jobs, s.index, s.queue,
           s.log + match Archivable(s, id, documentId) case None => [] case Some(k) => ArchiveCalls(cfg, s.jobs[id], k))
  {
    var e := EffectOf(cfg, t.sys, ArchiveJobDocument(id, documentId));
    assert t.sys.log + [] == t.sys.log;
    t' := Stepped(cfg, t, ArchiveJobDocument(id, documentId), e, Effected(t.sys, e));
  }

  // ---- Workers ----

  /** The state after a worker's call. */
  function Called(s: Sys, w: nat, events: seq<Event>, work: Work): Sys {
    s.(log := s.log + events, workers := s.workers[w := work])
  }

  /** The state after a worker's Save. */
  function Wrote(s: Sys, w: nat, j: Job, save: Save, work: Work): Sys {
    s.(jobs := SavedJobs(s.jobs, j, save), index := SavedIndex(s.index, j, save), workers := s.workers[w := work])
  }

  lemma OnwardIsGone(cfg: Config, t: Trace, step: Step, t': Trace)
    requires Onward(cfg, t, step, t')
    ensures Gone(cfg, t, [step], t')
  {
    assert Moves(cfg, [step]) == [Move(cfg, step)];
  }

  lemma GoneOn(cfg: Config, t: Trace, a: seq<Step>, u: Trace, b: seq<Step>, v: Trace)
    requires Gone(cfg, t, a, u) && Gone(cfg, u, b, v)
    ensures Gone(cfg, t, a + b, v)
  {
    assert Moves(cfg, a + b) == Moves(cfg, a) + Moves(cfg, b);
    assert u.run == t.run + Moves(cfg, a) && v.run == u.run + Moves(cfg, b);
    assert t.run + Moves(cfg, a) + Moves(cfg, b) == t.run + (Moves(cfg, a) + Moves(cfg, b));
  }

  /** A step its worker is not in the place for does nothing. */
  predicate Idles(s: Sys, step: Step) {
    WorkQueue.IsWorkerStep(step) && !step.WorkerCrash? && !WorkQueue.CanTake(s, step)
  }

  lemma IdleNext(cfg: Config, s: Sys, step: Step)
    requires Idles(s, step)
    ensures Effected(s, EffectOf(cfg, s, step)) == s
  {
  }

  lemma {:induction false} Skipped(cfg: Config, t: Trace, steps: seq<Step>) returns (t': Trace)
    requires Reaches(t) && forall step :: step in steps ==> Idles(t.sys, step)
    ensures Gone(cfg, t, steps, t') && t'.sys == t.sys
  {
    if steps == [] {
      t' := t;
      assert t.run + Moves(cfg, steps) == t.run;
    } else {
      var (init, step) := (steps[..|steps| - 1], steps[|steps| - 1]);
      var u := Skipped(cfg, t, init);
      IdleNext(cfg, t.sys, step);
      t' := Stepped(cfg, u, step, EffectOf(cfg, t.sys, step), t.sys);
      OnwardIsGone(cfg, u, step, t');
      GoneOn(cfg, t, init, u, [step], t');
      assert init + [step] == steps;
    }
  }

  lemma CalledNext(cfg: Config, t: Trace, step: Step, w: nat, events: seq<Event>, work: Work) returns (t': Trace)
    requires Reaches(t) && Fresh(t.sys, step) && EffectOf(cfg, t.sys, step) == Works(w, events, work)
    ensures Gone(cfg, t, [step], t') && t'.sys == Called(t.sys, w, events, work)
  {
    t' := Stepped(cfg, t, step, Works(w, events, work), Called(t.sys, w, events, work));
    OnwardIsGone(cfg, t, step, t');
  }

  lemma WroteNext(cfg: Config, t: Trace, step: Step, w: nat, save: Save, work: Work) returns (t': Trace)
    requires Reaches(t) && Fresh(t.sys, step) && EffectOf(cfg, t.sys, step) == Writes(w, save, work)
      && t.sys.WorkOf(w).Copy()
    ensures Gone(cfg, t, [step], t') && t'.sys == Wrote(t.sys, w, t.sys.WorkOf(w).job, save, work)
  {
    t' := Stepped(cfg, t, step, Writes(w, save, work), Wrote(t.sys, w, t.sys.WorkOf(w).job, save, work));
    OnwardIsGone(cfg, t, step, t');
  }

  lemma TookDequeue(cfg: Config, t: Trace, w: nat, lost: bool) returns (t': Trace)
    requires Reaches(t) && t.sys.WorkOf(w).Idle?
    ensures Gone(cfg, t, [WorkerDequeue(w, lost)], t')
    ensures
      var s := t.sys;
      t'.sys == if s.queue == [] then s
                else Called(s.(queue := s.queue[1..]), w, [Dequeue(s.queue[0])], if lost then Idle else Got(s.queue[0]))
  {
    t' := Stepped(cfg, t, WorkerDequeue(w, lost), Takes(w, lost), Effected(t.sys, Takes(w, lost)));
    OnwardIsGone(cfg, t, WorkerDequeue(w, lost), t');
  }

  lemma TookLoad(cfg: Config, t: Trace, w: nat, id: string, loaded: bool) returns (t': Trace)
    requires Reaches(t) && t.sys.WorkOf(w) == Got(id)
    ensures Gone(cfg, t, [WorkerLoad(w, loaded)], t') && t'.sys == Called(t.sys, w, [], AfterLoad(t.sys, id, loaded))
    ensures id in t.sys.jobs ==> t.sys.jobs[id].jobId == id
  {
    Reached(t);
    t' := CalledNext(cfg, t, WorkerLoad(w, loaded), w, [], AfterLoad(t.sys, id, loaded));
  }

  lemma TookSign(cfg: Config, t: Trace, w: nat, j: Job, ans: SignAnswers, o: Outcome) returns (t': Trace)
    requires Reaches(t) && t.sys.WorkOf(w) == ToSign(j) && o == Sign(j, ans)
    ensures Gone(cfg, t, [WorkerSign(w, ans)], t') && t'.sys == Called(t.sys, w, o.events, Signed(j, o))
  {
    t' := CalledNext(cfg, t, WorkerSign(w, ans), w, o.events, Signed(j, o));
  }

  lemma TookPush(cfg: Config, t: Trace, w: nat, j: Job, ans: SignAnswers, o: Outcome) returns (t': Trace)
    requires Reaches(t) && t.sys.WorkOf(w) == ToPush(j) && o == PushDevice(j, ans)
    ensures Gone(cfg, t, [WorkerPush(w, ans)], t') && t'.sys == Called(t.sys, w, o.events, AfterSign(o))
  {
    t' := CalledNext(cfg, t, WorkerPush(w, ans), w, o.events, AfterSign(o));
  }

  lemma TookFinalize(cfg: Config, t: Trace, w: nat, j: Job, taken: bool, o: Outcome) returns (t': Trace)
    requires Reaches(t) && t.sys.WorkOf(w) == ToFinalize(j) && o == Finalized(cfg, j, taken)
    ensures Gone(cfg, t, [WorkerFinalize(w, taken)], t') && t'.sys == Called(t.sys, w, o.events, AfterFinalize(o))
    ensures AfterFinalize(o).job.state.Terminal()
  {
    t' := CalledNext(cfg, t, WorkerFinalize(w, taken), w, o.events, AfterFinalize(o));
    Reached(t');
    assert InPhase(t'.sys.workers[w]);
  }

  lemma TookPublish(cfg: Config, t: Trace, w: nat, j: Job, save: Save) returns (t': Trace)
    requires Reaches(t) && t.sys.WorkOf(w) == ToPublish(j)
    ensures Gone(cfg, t, [WorkerPublish(w, save)], t') && t'.sys == Wrote(t.sys, w, j, save, AfterPublish(j, save))
  {
    t' := WroteNext(cfg, t, WorkerPublish(w, save), w, save, AfterPublish(j, save));
  }

  lemma TookSave(cfg: Config, t: Trace, w: nat, j: Job, more: bool, save: Save) returns (t': Trace)
    requires Reaches(t) && t.sys.WorkOf(w) == ToSave(j, more)
    ensures Gone(cfg, t, [WorkerSave(w, save)], t')
    ensures t'.sys == Wrote(t.sys, w, j, save, if more then ToFinalize(j) else Idle)
    ensures if more then j.state.Finalizing? else j.state.Terminal()
  {
    HeldPhase(t, w);
    t' := WroteNext(cfg, t, WorkerSave(w, save), w, save, if more then ToFinalize(j) else Idle);
  }

  lemma HeldPhase(t: Trace, w: nat)
    requires Reaches(t)
    ensures InPhase(t.sys.WorkOf(w))
  {
    Reached(t);
  }

  // ---- One RunJob ----

  /** The steps of RunJob in order; those that do not apply do nothing. */
  function Pushing(w: nat, r: RunAnswers): seq<Step> {
    [WorkerPublish(w, r.published)] + [WorkerPush(w, r.device)]
  }

  function SigningSteps(w: nat, r: RunAnswers): seq<Step> {
    [WorkerSign(w, r.sign)] + Pushing(w, r) + [WorkerSave(w, r.signed)]
  }

  function Finishing(w: nat, r: RunAnswers): seq<Step> {
    [WorkerFinalize(w, r.taken)] + [WorkerSave(w, r.finished)]
  }

  function Round(w: nat, r: RunAnswers): seq<Step> {
    [WorkerLoad(w, r.loaded)] + (SigningSteps(w, r) + Finishing(w, r))
  }

  lemma SkipPushing(cfg: Config, t: Trace, w: nat, r: RunAnswers) returns (t': Trace)
    requires Reaches(t) && t.sys.WorkOf(w).ToSave?
    ensures Gone(cfg, t, Pushing(w, r), t') && t'.sys == t.sys
  {
    t' := Skipped(cfg, t, Pushing(w, r));
  }

  lemma SkipPush(cfg: Config, t: Trace, w: nat, r: RunAnswers) returns (t': Trace)
    requires Reaches(t) && t.sys.WorkOf(w).ToSave?
    ensures Gone(cfg, t, [WorkerPush(w, r.device)], t') && t'.sys == t.sys
  {
    t' := Skipped(cfg, t, [WorkerPush(w, r.device)]);
  }

  lemma SkipSigning(cfg: Config, t: Trace, w: nat, r: RunAnswers) returns (t': Trace)
    requires Reaches(t) && t.sys.WorkOf(w).ToFinalize?
    ensures Gone(cfg, t, SigningSteps(w, r), t') && t'.sys == t.sys
  {
    t' := Skipped(cfg, t, SigningSteps(w, r));
  }

  lemma SkipFinishing(cfg: Config, t: Trace, w: nat, r: RunAnswers) returns (t': Trace)
    requires Reaches(t) && t.sys.WorkOf(w).Idle?
    ensures Gone(cfg, t, Finishing(w, r), t') && t'.sys == t.sys
  {
    t' := Skipped(cfg, t, Finishing(w, r));
  }

  lemma SkipAll(cfg: Config, t: Trace, w: nat, r: RunAnswers) returns (t': Trace)
    requires Reaches(t) && t.sys.WorkOf(w).Idle?
    ensures Gone(cfg, t, SigningSteps(w, r) + Finishing(w, r), t') && t'.sys == t.sys
  {
    t' := Skipped(cfg, t, SigningSteps(w, r) + Finishing(w, r));
  }

  /** One turn of a worker's loop: how its dequeue went, and the answers its RunJob meets. */
  datatype Turn = Turn(lost: bool, answers: RunAnswers)
  {
    predicate Lossless() { !lost && answers.Lossless() }
  }

  function TurnSteps(w: nat, turn: Turn): seq<Step> {
    [WorkerDequeue(w, turn.lost)] + Round(w, turn.answers)
  }

  lemma TurnIsFaultless(w: nat, turn: Turn)
    requires turn.Lossless()
    ensures forall step :: step in TurnSteps(w, turn) ==> Faultless(step)
  {
  }

  lemma TurnIsSmooth(cfg: Config, t: Trace, w: nat, turn: Turn, t': Trace)
    requires Gone(cfg, t, TurnSteps(w, turn), t') && t.smooth && turn.Lossless()
    ensures t'.smooth
  {
    TurnIsFaultless(w, turn);
    assert t'.run == t.run + Moves(cfg, TurnSteps(w, turn));
  }

  /** The steps of a worker's loop. */
  function Turns(w: nat, turns: seq<Turn>): seq<Step> {
    if turns == [] then [] else Turns(w, turns[..|turns| - 1]) + TurnSteps(w, turns[|turns| - 1])
  }

  lemma NotGone(cfg: Config, t: Trace)
    requires Reaches(t)
    ensures Gone(cfg, t, [], t)
  {
    assert t.run + Moves(cfg, []) == t.run;
  }

  lemma SkipRound(cfg: Config, t: Trace, w: nat, r: RunAnswers) returns (t': Trace)
    requires Reaches(t) && t.sys.WorkOf(w).Idle?
    ensures Gone(cfg, t, Round(w, r), t') && t'.sys == t.sys
  {
    t' := Skipped(cfg, t, Round(w, r));
  }

  /** When nothing was lost and the workers are done, no stored job is left for one. */
  lemma NothingLeft(t: Trace)
    requires Reaches(t) && t.smooth && WorkQueue.Quiet(t.sys)
    ensures forall id :: id in t.sys.jobs ==> !t.sys.jobs[id].state.Workable()
  {
    Reached(t);
    forall id | id in t.sys.jobs ensures !t.sys.jobs[id].state.Workable() { WorkQueue.QuietIsFinished(t.run, id); }
  }
}
