/**
 The verification code of an eidScan signing: what the device is pushed is the code of a job that
 was in the store, exactly as pushed, before the push.
 */
module DeviceCode {
  import opened Jobs
  import opened Upstream
  import opened AuthCert
  import opened Flows
  import opened Machine
  import opened Copies
  import opened AtMostOnce
  import opened StateIndex

  /** The job was in the store, exactly so, after the first k moves. */
  ghost predicate StoredAt(run: seq<Move>, k: nat, j: Job) {
    k <= |run| && j.jobId in After(run[..k]).jobs && After(run[..k]).jobs[j.jobId] == j
  }

  lemma {:induction false} LogIsKept(run: seq<Move>, k: nat, e: Event)
    requires k <= |run| && e in After(run[..k]).log
    ensures e in After(run).log
  {
    if k == |run| {
      assert run[..k] == run;
    } else {
      var (init, m) := (run[..|run| - 1], run[|run| - 1]);
      assert init[..k] == run[..k];
      LogIsKept(init, k, e);
      LogGrows(After(init), EffectOf(m.cfg, After(init), m.step));
    }
  }

  lemma {:induction false} StoredAtGrows(run: seq<Move>, k: nat, j: Job)
    requires run != [] && StoredAt(run[..|run| - 1], k, j)
    ensures StoredAt(run, k, j) && After(run[..k]) == After(run[..|run| - 1][..k])
  {
    assert run[..|run| - 1][..k] == run[..k];
  }

  /** A worker comes to push only by a Save, acknowledged, of the very copy it pushes. */
  lemma ToPushIsStored(cfg: Config, s: Sys, step: Step, w: nat)
    requires Next(cfg, s, step).WorkOf(w).ToPush? && Next(cfg, s, step).WorkOf(w) != s.WorkOf(w)
    ensures
      var (s', j) := (Next(cfg, s, step), Next(cfg, s, step).WorkOf(w).job);
      j.jobId in s'.jobs && s'.jobs[j.jobId] == j
  {
    var e := EffectOf(cfg, s, step);
    HeldFrom(s, e, w);
    OnlyPublishLeadsToPush(cfg, s, step);
    WrittenJobs(s, e);
  }

  lemma OnlyPublishLeadsToPush(cfg: Config, s: Sys, step: Step)
    ensures
      var e := EffectOf(cfg, s, step);
      && (e.Works? ==> !e.work.ToPush?)
      && (e.Writes? && e.work.ToPush? ==> e.save.Saved? && s.WorkOf(e.w).Copy() && e.work.job == s.WorkOf(e.w).job)
  {
  }

  /** Every worker about to push holds a copy that has been stored. */
  lemma {:induction false} PushesWhatWasStored(run: seq<Move>, w: nat)
    requires After(run).WorkOf(w).ToPush?
    ensures exists k :: StoredAt(run, k, After(run).WorkOf(w).job)
  {
    if run != [] {
      var (init, m) := (run[..|run| - 1], run[|run| - 1]);
      if After(run).WorkOf(w) == After(init).WorkOf(w) {
        PushesWhatWasStored(init, w);
        var k :| StoredAt(init, k, After(init).WorkOf(w).job);
        StoredAtGrows(run, k, After(init).WorkOf(w).job);
      } else {
        ToPushIsStored(m.cfg, After(init), m.step, w);
        assert run[..|run|] == run;
        assert StoredAt(run, |run|, After(run).WorkOf(w).job);
      }
    }
  }

  /** Stored before it was pushed. */
  ghost predicate PublishedFirst(run: seq<Move>, k: nat, e: Event)
    requires e.DevicePush?
  {
    StoredAt(run, k, e.job) && e !in After(run[..k]).log
  }

  lemma DevicePushIsMade(cfg: Config, s: Sys, step: Step, e: Event)
    requires e in Made(s, EffectOf(cfg, s, step)) && e.DevicePush?
    ensures step.WorkerPush? && s.WorkOf(step.w) == ToPush(e.job) && e.code == e.job.verificationCode
  {
    match step
    case Prepare(_, _, _, _) => HandlerMakes(cfg, s, step);
    case Callback(_, _, _, _, _, _) => HandlerMakes(cfg, s, step);
    case ArchiveJobDocument(_, _) => ArchiveMakes(cfg, s, step);
    case WorkerSign(w, ans) =>
      SignMakes(cfg, s, step);
      if s.WorkOf(w).ToSign? && s.WorkOf(w).job.flow.IsCsc() { SignCscCalls(s.WorkOf(w).job, ans); }
    case WorkerPush(_, _) => PushMakes(cfg, s, step);
    case WorkerFinalize(w, taken) =>
      FinalizeMakes(cfg, s, step);
      if s.WorkOf(w).ToFinalize? { FinalizingCalls(cfg, s.WorkOf(w).job, taken); }
    case _ => SilentMakes(cfg, s, step);
  }

  lemma {:induction false} UnpushedBefore(run: seq<Move>, w: nat, k: nat, e: Event)
    requires Possible(run) && k <= |run| && After(run).WorkOf(w).ToPush?
    requires e.DevicePush? && e.job == After(run).WorkOf(w).job
    ensures e !in After(run[..k]).log
  {
    var s := After(run);
    AlwaysOnce(run);
    assert OnceFor(s, e.job.jobId) && s.workers[w].On(e.job.jobId);
    if e in After(run[..k]).log {
      LogIsKept(run, k, e);
      UncalledIsAbsent(s.log, e);
    }
  }

  /** In every run, the code a device was pushed is that of a job in the store before the push. */
  lemma {:induction false} CodeIsStoredBeforePush(run: seq<Move>, e: Event)
    requires Possible(run) && e in After(run).log && e.DevicePush?
    ensures exists k :: PublishedFirst(run, k, e)
    ensures e.code == e.job.verificationCode
  {
    var (init, m) := (run[..|run| - 1], run[|run| - 1]);
    var s := After(init);
    PossiblePrefix(run);
    LogGrows(s, EffectOf(m.cfg, s, m.step));
    if e in s.log {
      CodeIsStoredBeforePush(init, e);
      var k :| PublishedFirst(init, k, e);
      StoredAtGrows(run, k, e.job);
      assert PublishedFirst(run, k, e);
    } else {
      DevicePushIsMade(m.cfg, s, m.step, e);
      PushesWhatWasStored(init, m.step.w);
      var k :| StoredAt(init, k, e.job);
      UnpushedBefore(init, m.step.w, k, e);
      StoredAtGrows(run, k, e.job);
      assert PublishedFirst(run, k, e);
    }
  }
}
