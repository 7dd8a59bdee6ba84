/**
 In every run, with any number of workers, crashes inside RunJob and lost or unacknowledged
 Redis writes, a job is enqueued at most once, and so signed at most once and finalized at most
 once. The reason is that leaving the last authorization leg, or AWAITING_CLIENT_SIGNATURE, is
 irreversible for every copy of the job.
 */
module AtMostOnce {
  import opened Jobs
  import opened Upstream
  import opened AuthCert
  import opened Flows
  import opened Machine
  import opened Copies
  import opened Shape

  /** Past the point where a handler may enqueue the job. */
  predicate Past(j: Job) {
    if j.flow.IsClientSide() then !j.state.AwaitingClientSignature? else j.pendingLeg.NoLeg?
  }

  // ---- Job level: past is past ----

  lemma CalledBackPast(j: Job, declined: bool, ans: Answers)
    ensures
      var a := CalledBack(j, declined, ans);
      && (Past(j) ==> a.verdict.Refusal? && Past(a.job))
      && (a.verdict.Done? ==> Past(a.job))
  {
    CallbackAdvances(j, ans);
  }

  lemma FollowsPast(j: Job, work: Work)
    requires Past(j) && Follows(j, work) && work.Copy()
    ensures Past(work.job)
  {
  }

  // ---- Which calls a step makes ----

  lemma {:induction false} AbsentIsUncalled(events: seq<Event>, kind: Kind, id: string)
    requires forall e :: e in events ==> KindOf(e) != kind || Subject(e) != id
    ensures Calls(events, kind, id) == 0
  {
    if events != [] { AbsentIsUncalled(events[..|events| - 1], kind, id); }
  }

  lemma {:induction false} OneCall(e: Event, kind: Kind, id: string)
    ensures Calls([e], kind, id) == if KindOf(e) == kind && Subject(e) == id then 1 else 0
    ensures Total([e], kind) == if KindOf(e) == kind then 1 else 0
  {
    assert [e][..0] == [];
  }

  /** Calls that neither enqueue, dequeue, sign nor finalize, all for one job. */
  ghost predicate Preliminary(events: seq<Event>, id: string) {
    forall e :: e in events ==>
      && Subject(e) == id
      && (e.IdentityInfo? || e.CredentialInfo? || e.Calculated? || e.Consent? || e.Pushed? || e.Bound? || e.Requested?
        || e.Refused? || e.Archive?)
  }

  /** At most one call of the given kind, for one job. */
  ghost predicate AtMostOne(events: seq<Event>, kind: Kind, id: string) {
    |events| <= 1 && forall e :: e in events ==> KindOf(e) == kind && Subject(e) == id
  }

  /** Signing makes at most one call to the signer, and after it only checks of what came back. */
  ghost predicate SignCalls(events: seq<Event>, id: string) {
    && (forall e :: e in events ==> Subject(e) == id && (KindOf(e) == SignKind || e.Checked?))
    && (forall i :: 1 <= i < |events| ==> events[i].Checked?)
  }

  /** finalize makes one preliminary call, and at most one request after it. */
  ghost predicate FinalizeCalls(events: seq<Event>, id: string) {
    && 1 <= |events| <= 2
    && (events[0].Requested? || events[0].Refused?) && Subject(events[0]) == id
    && (|events| == 2 ==> events[1].Finalize? && Subject(events[1]) == id)
  }

  lemma SigningCalls(j: Job, ans: SignAnswers)
    ensures SignCalls(Sign(j, ans).events, j.jobId)
    ensures SignCalls(PushDevice(j, ans).events, j.jobId)
    ensures j.flow.EidScan? ==> Sign(j, ans).events == []
  {
    if j.flow.IsCsc() { SignCscCalls(j, ans); }
  }

  lemma FinalizingCalls(cfg: Config, j: Job, taken: bool)
    ensures FinalizeCalls(Finalized(cfg, j, taken).events, j.jobId)
  {
  }

  lemma {:induction false} PreliminaryTally(events: seq<Event>, x: string, id: string)
    requires Preliminary(events, x)
    ensures Calls(events, EnqueueKind, id) == Calls(events, DequeueKind, id) == 0
    ensures Calls(events, SignKind, id) == Calls(events, FinalizeKind, id) == 0
  {
    AbsentIsUncalled(events, EnqueueKind, id);
    AbsentIsUncalled(events, DequeueKind, id);
    AbsentIsUncalled(events, SignKind, id);
    AbsentIsUncalled(events, FinalizeKind, id);
  }

  lemma {:induction false} OneTally(events: seq<Event>, kind: Kind, x: string, id: string)
    requires AtMostOne(events, kind, x)
    ensures Calls(events, kind, id) <= if x == id then 1 else 0
    ensures forall k :: k != kind ==> Calls(events, k, id) == 0
  {
    forall k | k != kind ensures Calls(events, k, id) == 0 { AbsentIsUncalled(events, k, id); }
    if events == [] || x != id {
      AbsentIsUncalled(events, kind, id);
    } else {
      assert events == [events[0]];
      OneCall(events[0], kind, id);
    }
  }

  lemma {:induction false} SignTally(events: seq<Event>, x: string, id: string)
    requires SignCalls(events, x)
    ensures Calls(events, EnqueueKind, id) == Calls(events, DequeueKind, id) == Calls(events, FinalizeKind, id) == 0
    ensures Calls(events, SignKind, id) <= if x == id then 1 else 0
  {
    AbsentIsUncalled(events, EnqueueKind, id);
    AbsentIsUncalled(events, DequeueKind, id);
    AbsentIsUncalled(events, FinalizeKind, id);
    if events != [] {
      var more := events[1..];
      assert events == [events[0]] + more;
      CallsConcat([events[0]], more, SignKind, id);
      OneCall(events[0], SignKind, id);
      AbsentIsUncalled(more, SignKind, id);
    }
  }

  lemma {:induction false} FinalizeTally(events: seq<Event>, x: string, id: string)
    requires FinalizeCalls(events, x)
    ensures Calls(events, EnqueueKind, id) == Calls(events, DequeueKind, id) == Calls(events, SignKind, id) == 0
    ensures Calls(events, FinalizeKind, id) <= if x == id then 1 else 0
  {
    var (first, more) := ([events[0]], events[1..]);
    assert events == first + more && (forall e :: e in first ==> e == events[0])
      && (forall e :: e in more ==> e == events[1]);
    PreliminaryTally(first, x, id);
    OneTally(more, FinalizeKind, x, id);
    forall kind ensures Calls(events, kind, id) == Calls(first, kind, id) + Calls(more, kind, id) {
      CallsConcat(first, more, kind, id);
    }
  }

  /** What an effect must keep to for nothing to happen twice. */
  ghost predicate Sparing(s: Sys, e: Effect) {
    match e
    case Creates(j, events, _) => j.jobId !in s.used && Preliminary(events, j.jobId)
    case Settles(before, after, events, _, _, enqueued) =>
      && Preliminary(events, before.jobId)
      && (Past(before) ==> Past(after) && !enqueued)
      && (enqueued ==> Past(after))
    case Records(id, events) => id in s.jobs && Preliminary(events, id)
    case Works(w, events, work) =>
      (match s.WorkOf(w)
       case ToSign(j) =>
         SignCalls(events, j.jobId) && (work.Idle? || work.ToSave? || (work.ToPublish? && events == []))
       case ToPush(j) => SignCalls(events, j.jobId) && (work.Idle? || work.ToSave?)
       case ToFinalize(j) =>
         if work.Idle? then events == [] else FinalizeCalls(events, j.jobId) && work.ToSave? && !work.more
       case Got(_) => true
       case _ => events == [] && work.Idle?)
    case Writes(w, _, work) =>
      (match s.WorkOf(w)
       case ToPublish(_) => work.ToPush? || (work.ToSave? && !work.more)
       case ToSave(_, more) => if more then work.ToFinalize? else work.Idle?
       case _ => false)
    case _ => true
  }

  lemma CallbackIsSparing(cfg: Config, s: Sys, step: Step)
    requires step.Callback?
    ensures Sparing(s, EffectOf(cfg, s, step))
  {
    var e := EffectOf(cfg, s, step);
    if e.Settles? {
      CalledBackPrepares(e.before, step.declined, step.ans);
      CalledBackPast(e.before, step.declined, step.ans);
    }
  }

  lemma HandlerIsSparing(cfg: Config, s: Sys, step: Step)
    requires Shaped(s) && Fresh(s, step)
    requires step.Prepare? || step.Callback? || step.SubmitSignatures? || step.ArchiveJobDocument?
    ensures Sparing(s, EffectOf(cfg, s, step))
  {
    match step
    case Prepare(id, input, ans, save) =>
      if Admitted(cfg, input) {
        PreparedPrepares(id, input, ans);
        PreparedIsWellFormed(id, input, ans);
      }
    case Callback(_, _, _, _, _, _) => CallbackIsSparing(cfg, s, step);
    case ArchiveJobDocument(id, documentId) => if id in s.jobs { StoredIsWellFormed(s, id); }
    case _ =>
  }

  lemma EffectIsSparing(cfg: Config, s: Sys, step: Step)
    requires Shaped(s) && Fresh(s, step)
    ensures Sparing(s, EffectOf(cfg, s, step))
  {
    match step
    case Prepare(_, _, _, _) => HandlerIsSparing(cfg, s, step);
    case Callback(_, _, _, _, _, _) => HandlerIsSparing(cfg, s, step);
    case SubmitSignatures(_, _, _, _) => HandlerIsSparing(cfg, s, step);
    case ArchiveJobDocument(_, _) => HandlerIsSparing(cfg, s, step);
    case WorkerSign(w, ans) => if s.WorkOf(w).ToSign? { SigningCalls(s.WorkOf(w).job, ans); }
    case WorkerPush(w, ans) => if s.WorkOf(w).ToPush? { SigningCalls(s.WorkOf(w).job, ans); }
    case WorkerFinalize(w, taken) => if s.WorkOf(w).ToFinalize? { FinalizingCalls(cfg, s.WorkOf(w).job, taken); }
    case _ =>
  }

  // ---- The invariant ----

  /** What a worker's place says about the calls already made for its job. */
  ghost predicate Unspent(work: Work, sign: nat, fin: nat) {
    && (work.Copy() ==> Past(work.job))
    && match work
       case ToSave(_, more) => more ==> fin == 0
       case ToFinalize(_) => fin == 0
       case _ => sign == 0 && fin == 0
  }

  ghost predicate OnceFor(s: Sys, id: string) {
    var (enq, deq) := (Calls(s.log, EnqueueKind, id), Calls(s.log, DequeueKind, id));
    var (sign, fin) := (Calls(s.log, SignKind, id), Calls(s.log, FinalizeKind, id));
    && enq <= 1
    && multiset(s.queue)[id] + deq == enq
    && sign <= deq && fin <= deq
    && (enq == 1 && id in s.jobs ==> Past(s.jobs[id]))
    && (forall w :: w in s.workers && s.workers[w].On(id) ==> deq == 1 && Unspent(s.workers[w], sign, fin))
    && (forall v, w :: v in s.workers && w in s.workers && s.workers[v].On(id) && s.workers[w].On(id) ==> v == w)
  }

  /** Whatever is mentioned anywhere was once created. */
  ghost predicate Accounted(s: Sys) {
    && (forall e :: e in s.log ==> Subject(e) in s.used)
    && (forall j :: Known(s, j) ==> j.jobId in s.used)
    && (forall w :: w in s.workers && s.workers[w].Got? ==> s.workers[w].id in s.used)
    && (forall id :: id in s.queue ==> id in s.used)
  }

  ghost predicate Once(s: Sys) {
    Accounted(s) && forall id :: OnceFor(s, id)
  }

  lemma {:induction false} UnusedIsUncalled(s: Sys, id: string)
    requires Accounted(s) && id !in s.used
    ensures forall kind :: Calls(s.log, kind, id) == 0
  {
    forall kind ensures Calls(s.log, kind, id) == 0 { AbsentIsUncalled(s.log, kind, id); }
  }

  /** How an effect moves the counts of one job. */
  ghost predicate Counts(s: Sys, s': Sys, id: string, enq: nat, deq: nat, sign: nat, fin: nat) {
    && Calls(s'.log, EnqueueKind, id) == Calls(s.log, EnqueueKind, id) + enq
    && Calls(s'.log, DequeueKind, id) == Calls(s.log, DequeueKind, id) + deq
    && Calls(s'.log, SignKind, id) == Calls(s.log, SignKind, id) + sign
    && Calls(s'.log, FinalizeKind, id) == Calls(s.log, FinalizeKind, id) + fin
    && multiset(s'.queue)[id] + deq == multiset(s.queue)[id] + enq
  }

  lemma {:induction false} CountsUp(s: Sys, s': Sys, made: seq<Event>, id: string)
    requires s'.log == s.log + made
    requires multiset(s'.queue)[id] + Calls(made, DequeueKind, id)
      == multiset(s.queue)[id] + Calls(made, EnqueueKind, id)
    ensures Counts(s, s', id, Calls(made, EnqueueKind, id), Calls(made, DequeueKind, id),
                   Calls(made, SignKind, id), Calls(made, FinalizeKind, id))
  {
    CallsConcat(s.log, made, EnqueueKind, id);
    CallsConcat(s.log, made, DequeueKind, id);
    CallsConcat(s.log, made, SignKind, id);
    CallsConcat(s.log, made, FinalizeKind, id);
  }

  /** A handler keeps the invariant if it enqueues only what was never enqueued and is now past. */
  lemma {:induction false} HandlerKeepsOnce(s: Sys, s': Sys, id: string, enq: nat)
    requires OnceFor(s, id) && s'.workers == s.workers && Counts(s, s', id, enq, 0, 0, 0)
    requires Calls(s.log, EnqueueKind, id) + enq <= 1
    requires Calls(s'.log, EnqueueKind, id) == 1 && id in s'.jobs ==> Past(s'.jobs[id])
    ensures OnceFor(s', id)
  {
  }

  /** A worker's step keeps the invariant for the job it works on if its new place has nothing spent. */
  lemma {:induction false} WorkerKeepsOnce(s: Sys, s': Sys, w: nat, work: Work, id: string, sign: nat, fin: nat)
    requires OnceFor(s, id) && Counts(s, s', id, 0, 0, sign, fin)
    requires s'.workers == s.workers[w := work] && s.WorkOf(w).On(id)
    requires Calls(s.log, SignKind, id) + sign <= 1 && Calls(s.log, FinalizeKind, id) + fin <= 1
    requires work.On(id) ==> Unspent(work, Calls(s'.log, SignKind, id), Calls(s'.log, FinalizeKind, id))
    requires Calls(s'.log, EnqueueKind, id) == 1 && id in s'.jobs ==> Past(s'.jobs[id])
    ensures OnceFor(s', id)
  {
    assert w in s.workers && s.workers[w].On(id);
  }

  /** And for every other job it changes nothing. */
  lemma OtherKeepsOnce(s: Sys, s': Sys, w: nat, work: Work, id: string)
    requires OnceFor(s, id) && Counts(s, s', id, 0, 0, 0, 0)
    requires s'.workers == s.workers[w := work] && !work.On(id)
    requires id in s'.jobs ==> id in s.jobs && s'.jobs[id] == s.jobs[id]
    ensures OnceFor(s', id)
  {
  }

  lemma CreatesOnce(s: Sys, e: Effect, id: string)
    requires e.Creates? && Sparing(s, e) && Once(s)
    ensures OnceFor(Effected(s, e), id)
  {
    assert OnceFor(s, id);
    PreliminaryTally(e.events, e.job.jobId, id);
    CountsUp(s, Effected(s, e), e.events, id);
    if id == e.job.jobId { UnusedIsUncalled(s, id); }
    HandlerKeepsOnce(s, Effected(s, e), id, 0);
  }

  lemma {:induction false} EnqueueTally(events: seq<Event>, x: string, j: Job, id: string)
    requires Preliminary(events, x)
    ensures
      var made := events + [Enqueue(j)];
      && Calls(made, EnqueueKind, id) == (if j.jobId == id then 1 else 0)
      && Calls(made, DequeueKind, id) == Calls(made, SignKind, id) == Calls(made, FinalizeKind, id) == 0
  {
    PreliminaryTally(events, x, id);
    forall kind ensures Calls(events + [Enqueue(j)], kind, id)
        == Calls(events, kind, id) + if kind == EnqueueKind && j.jobId == id then 1 else 0 {
      CallsConcat(events, [Enqueue(j)], kind, id);
      OneCall(Enqueue(j), kind, id);
    }
  }

  lemma SettlesOnce(s: Sys, e: Effect, id: string)
    requires e.Settles? && Sparing(s, e) && Legal(s, e) && Once(s)
    ensures OnceFor(Effected(s, e), id)
  {
    assert OnceFor(s, id) && OnceFor(s, e.before.jobId);
    LogGrows(s, e);
    if e.enqueued {
      EnqueueTally(e.events, e.before.jobId, e.after, id);
    } else {
      PreliminaryTally(e.events, e.before.jobId, id);
    }
    SettledStore(s, e);
    CountsUp(s, Effected(s, e), Made(s, e), id);
    HandlerKeepsOnce(s, Effected(s, e), id, if e.enqueued && e.after.jobId == id then 1 else 0);
  }

  lemma SettledStore(s: Sys, e: Effect)
    requires e.Settles?
    ensures
      var s' := Effected(s, e);
      && s'.workers == s.workers
      && s'.queue == (if e.enqueued then s.queue + [e.after.jobId] else s.queue)
      && s'.jobs == (if e.save.Written() then s.jobs[e.after.jobId := e.after] else s.jobs)
  {
    SettledJobs(s, e);
  }

  lemma DeletesOrRecordsOnce(s: Sys, e: Effect, id: string)
    requires (e.Deletes? || e.Records?) && Sparing(s, e) && Once(s)
    ensures OnceFor(Effected(s, e), id)
  {
    assert OnceFor(s, id);
    LogGrows(s, e);
    PreliminaryTally(Made(s, e), e.id, id);
    CountsUp(s, Effected(s, e), Made(s, e), id);
    HandlerKeepsOnce(s, Effected(s, e), id, 0);
  }

  lemma TakenCounts(s: Sys, s': Sys, id: string)
    requires s.queue != [] && s'.queue == s.queue[1..] && s'.log == s.log + [Dequeue(s.queue[0])]
    ensures Counts(s, s', id, 0, if s.queue[0] == id then 1 else 0, 0, 0)
  {
    var head := s.queue[0];
    forall kind ensures Calls([Dequeue(head)], kind, id) == if kind == DequeueKind && head == id then 1 else 0 {
      OneCall(Dequeue(head), kind, id);
    }
    assert s.queue == [head] + s.queue[1..];
    CountsUp(s, s', [Dequeue(head)], id);
  }

  lemma TakenStore(s: Sys, e: Effect)
    requires e.Takes? && s.queue != []
    ensures
      var (s', head) := (Effected(s, e), s.queue[0]);
      && s'.queue == s.queue[1..] && s'.log == s.log + [Dequeue(head)] && s'.jobs == s.jobs
      && s'.workers == s.workers[e.w := if e.lost then Idle else Got(head)]
  {
  }

  lemma TakesOnce(s: Sys, e: Effect, id: string)
    requires e.Takes? && Once(s) && s.WorkOf(e.w).Idle?
    ensures OnceFor(Effected(s, e), id)
  {
    assert OnceFor(s, id);
    if s.queue != [] {
      TakenStore(s, e);
      TakenOnce(s, Effected(s, e), e.w, if e.lost then Idle else Got(s.queue[0]), id);
    }
  }

  lemma TakenOnce(s: Sys, s': Sys, w: nat, work: Work, id: string)
    requires OnceFor(s, id) && s.queue != [] && (work.Idle? || work == Got(s.queue[0])) && s.WorkOf(w).Idle?
    requires s'.queue == s.queue[1..] && s'.log == s.log + [Dequeue(s.queue[0])] && s'.jobs == s.jobs
      && s'.workers == s.workers[w := work]
    ensures OnceFor(s', id)
  {
    TakenCounts(s, s', id);
    if id == s.queue[0] {
      DequeuedOnce(s, s', w, work, id);
    } else {
      OtherKeepsOnce(s, s', w, work, id);
    }
  }

  lemma DequeuedOnce(s: Sys, s': Sys, w: nat, work: Work, id: string)
    requires OnceFor(s, id) && Counts(s, s', id, 0, 1, 0, 0) && id in s.queue
    requires s'.workers == s.workers[w := work] && (work.Idle? || work == Got(id)) && s'.jobs == s.jobs
    ensures OnceFor(s', id)
  {
    assert multiset(s.queue)[id] >= 1;
    assert forall v :: v in s.workers ==> !s.workers[v].On(id);
  }

  lemma LoadsOnce(s: Sys, e: Effect, id: string)
    requires Shaped(s) && e.Works? && Legal(s, e) && Once(s) && (s.WorkOf(e.w).Got? || e.work.Idle?) && e.events == []
    ensures OnceFor(Effected(s, e), id)
  {
    assert OnceFor(s, id);
    var s' := Effected(s, e);
    assert s'.log == s.log;
    assert Counts(s, s', id, 0, 0, 0, 0);
    if s.WorkOf(e.w).On(id) {
      assert s.workers[e.w].On(id);
      WorkerKeepsOnce(s, s', e.w, e.work, id, 0, 0);
    } else {
      OtherKeepsOnce(s, s', e.w, e.work, id);
    }
  }

  lemma CallsOnce(s: Sys, e: Effect, id: string)
    requires Shaped(s) && e.Works? && Legal(s, e) && Sparing(s, e) && Once(s) && s.WorkOf(e.w).Copy() && e.work.Copy()
    ensures OnceFor(Effected(s, e), id)
  {
    var s', was := Effected(s, e), s.WorkOf(e.w);
    var x := was.job.jobId;
    assert OnceFor(s, id) && OnceFor(s, x) && s.workers[e.w].On(x);
    FollowsPast(was.job, e.work);
    if was.ToFinalize? { FinalizeTally(e.events, x, id); } else { SignTally(e.events, x, id); }
    CountsUp(s, s', e.events, id);
    if x == id {
      WorkerKeepsOnce(s, s', e.w, e.work, id, Calls(e.events, SignKind, id), Calls(e.events, FinalizeKind, id));
    } else {
      OtherKeepsOnce(s, s', e.w, e.work, id);
    }
  }

  lemma WritesOnce(s: Sys, e: Effect, id: string)
    requires Shaped(s) && e.Writes? && Legal(s, e) && Sparing(s, e) && Once(s)
    ensures OnceFor(Effected(s, e), id)
  {
    var s', was := Effected(s, e), s.WorkOf(e.w);
    var x := was.job.jobId;
    assert OnceFor(s, id) && OnceFor(s, x) && s.workers[e.w].On(x);
    if e.work.Copy() { FollowsPast(was.job, e.work); }
    assert Counts(s, s', id, 0, 0, 0, 0);
    if x == id {
      WorkerKeepsOnce(s, s', e.w, e.work, id, 0, 0);
    } else {
      OtherKeepsOnce(s, s', e.w, e.work, id);
    }
  }

  lemma OnceForEffect(s: Sys, e: Effect, id: string)
    requires Shaped(s) && Legal(s, e) && Sparing(s, e) && Once(s)
    ensures OnceFor(Effected(s, e), id)
  {
    match e
    case NoEffect => assert OnceFor(s, id);
    case Creates(_, _, _) => CreatesOnce(s, e, id);
    case Settles(_, _, _, _, _, _) => SettlesOnce(s, e, id);
    case Deletes(_, _, _) => DeletesOrRecordsOnce(s, e, id);
    case Records(_, _) => DeletesOrRecordsOnce(s, e, id);
    case Takes(_, _) => TakesOnce(s, e, id);
    case Works(w, events, work) =>
      if s.WorkOf(w).Copy() && work.Copy() { CallsOnce(s, e, id); } else { LoadsOnce(s, e, id); }
    case Writes(_, _, _) => WritesOnce(s, e, id);
  }

  // ---- Nothing is mentioned that was not created ----

  lemma WorkerSubject(s: Sys, e: Effect, c: Event)
    requires e.Works? && Legal(s, e) && Sparing(s, e) && s.WorkOf(e.w).Copy() && c in e.events
    ensures Subject(c) == s.WorkOf(e.w).job.jobId
  {
    if s.WorkOf(e.w).ToFinalize? { assert c == e.events[0] || c == e.events[1]; }
  }

  lemma SubjectIsUsed(s: Sys, e: Effect, c: Event)
    requires Shaped(s) && Legal(s, e) && Sparing(s, e) && Accounted(s) && c in Made(s, e)
    ensures Subject(c) in Effected(s, e).used
  {
    UsedStays(s, e);
    match e
    case Creates(_, _, _) =>
    case Settles(before, _, _, _, _, _) => StoredIsWellFormed(s, before.jobId);
    case Records(id, _) => StoredIsWellFormed(s, id);
    case Works(_, _, _) => WorkerSubjectIsUsed(s, e, c);
    case _ =>
  }

  lemma UsedStays(s: Sys, e: Effect)
    ensures Effected(s, e).used == if e.Creates? then s.used + {e.job.jobId} else s.used
  {
  }

  lemma WorkerSubjectIsUsed(s: Sys, e: Effect, c: Event)
    requires Shaped(s) && e.Works? && Legal(s, e) && Sparing(s, e) && Accounted(s) && c in e.events
    ensures Subject(c) in s.used
  {
    HeldIsWellFormed(s, e.w);
    WorkerSubject(s, e, c);
  }

  lemma CopyIsUsed(s: Sys, e: Effect, j: Job)
    requires Shaped(s) && Honest(s, e) && Legal(s, e) && Accounted(s) && Known(Effected(s, e), j)
    ensures j.jobId in Effected(s, e).used
  {
    OnlyKnownCopies(s, e, j);
    UsedGrows(s, e);
    if Makes(e, j) { MadeIsUsed(s, e, j); }
  }

  lemma UsedGrows(s: Sys, e: Effect)
    ensures s.used <= Effected(s, e).used && (e.Creates? ==> e.job.jobId in Effected(s, e).used)
  {
  }

  lemma MadeIsUsed(s: Sys, e: Effect, j: Job)
    requires Shaped(s) && Legal(s, e) && Accounted(s) && Makes(e, j)
    ensures j.jobId in s.used || e.Creates?
  {
    match e
    case Settles(before, _, _, _, _, _) => StoredIsWellFormed(s, before.jobId);
    case Works(w, _, work) =>
      if s.WorkOf(w).Copy() { HeldIsWellFormed(s, w); }
      if s.WorkOf(w).Got? && work.Copy() { StoredIsWellFormed(s, s.WorkOf(w).id); }
    case Writes(w, _, _) => HeldIsWellFormed(s, w);
    case _ =>
  }

  lemma QueueIsUsed(s: Sys, e: Effect)
    requires Shaped(s) && Legal(s, e) && Accounted(s)
    ensures forall id :: id in Effected(s, e).queue ==> id in Effected(s, e).used
    ensures forall w :: w in Effected(s, e).workers && Effected(s, e).workers[w].Got? ==>
      Effected(s, e).workers[w].id in Effected(s, e).used
  {
    UsedStays(s, e);
    match e
    case Settles(before, _, _, _, _, _) =>
      StoredIsWellFormed(s, before.jobId);
      SettledStore(s, e);
    case Takes(_, _) => if s.queue != [] { TakenStore(s, e); }
    case _ => QueueIsKept(s, e);
  }

  lemma QueueIsKept(s: Sys, e: Effect)
    requires !e.Settles? && !e.Takes?
    ensures Effected(s, e).queue == s.queue
    ensures forall w :: w in Effected(s, e).workers && Effected(s, e).workers[w].Got? ==>
      (w in s.workers && s.workers[w] == Effected(s, e).workers[w])
        || ((e.Works? || e.Writes?) && e.work == Effected(s, e).workers[w])
  {
  }

  lemma AccountedEffect(s: Sys, e: Effect)
    requires Shaped(s) && Honest(s, e) && Legal(s, e) && Sparing(s, e) && Accounted(s)
    ensures Accounted(Effected(s, e))
  {
    var s' := Effected(s, e);
    LogGrows(s, e);
    assert s.used <= s'.used;
    forall c | c in s'.log ensures Subject(c) in s'.used { if c !in s.log { SubjectIsUsed(s, e, c); } }
    forall j | Known(s', j) ensures j.jobId in s'.used { CopyIsUsed(s, e, j); }
    QueueIsUsed(s, e);
  }

  lemma OnceStep(cfg: Config, s: Sys, step: Step)
    requires Shaped(s) && Once(s) && Fresh(s, step)
    ensures Once(Next(cfg, s, step))
  {
    var e := EffectOf(cfg, s, step);
    EffectIsHonest(cfg, s, step);
    EffectIsLegal(cfg, s, step);
    EffectIsSparing(cfg, s, step);
    AccountedEffect(s, e);
    forall id ensures OnceFor(Effected(s, e), id) { OnceForEffect(s, e, id); }
  }

  lemma {:induction false} AlwaysOnce(run: seq<Move>)
    requires Possible(run)
    ensures Once(After(run))
  {
    if run != [] {
      var init := run[..|run| - 1];
      assert forall k :: 0 <= k < |init| ==> init[..k] == run[..k] && init[k] == run[k];
      AlwaysOnce(init);
      AlwaysShaped(init);
      OnceStep(run[|run| - 1].cfg, After(init), run[|run| - 1].step);
    } else {
      assert forall id :: OnceFor(INITIAL, id);
    }
  }

  /** At most once, over every possible run: enqueued, signed, finalized. */
  lemma {:induction false} SignedAndFinalizedAtMostOnce(run: seq<Move>, id: string)
    requires Possible(run)
    ensures
      var log := After(run).log;
      && Calls(log, EnqueueKind, id) <= 1
      && Calls(log, SignKind, id) <= 1
      && Calls(log, FinalizeKind, id) <= 1
  {
    AlwaysOnce(run);
    assert OnceFor(After(run), id);
  }
}
