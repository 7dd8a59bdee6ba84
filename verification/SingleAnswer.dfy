/**
 One CalculateDigest answer per job. In every run, whatever Redis loses, a stored job that has not
 failed has had at most one answer applied to it. An answer may be asked for twice, but only where
 one callback loses both the clearing of its state and its Save; otherwise the log shows at most one
 answer too, and what the job shows is what that one said.
 */
module SingleAnswer {
  import opened Wrappers
  import opened Bytes
  import opened Jobs
  import opened Upstream
  import opened AuthCert
  import opened Flows
  import opened Machine
  import opened Copies
  import opened Shape
  import opened AtMostOnce
  import opened Provenance
  import opened DigestBinding
  import opened StateIndex
  import opened Lifecycle

  /** How many answers a job has had that has not failed: none before the signature leg, one from there on. */
  function Answered(j: Job): nat {
    if j.pendingLeg.ProfileLeg? || j.pendingLeg.CredentialLeg? then 0 else 1
  }

  // ---- Job level ----

  lemma CalculatedOnceAtMost(j: Job, certificate: string, answer: Option<DigestAnswer>)
    ensures
      var o := CalculateDigests(j, certificate, answer);
      && Calls(o.events, CalculatedKind, j.jobId) <= 1 && (o.ok ==> Calls(o.events, CalculatedKind, j.jobId) == 1)
      && o.job.pendingLeg == j.pendingLeg && o.job.state == j.state && o.job.jobId == j.jobId
  {
    CalculatedIsAlike(j, certificate, answer);
    var events := CalculateDigests(j, certificate, answer).events;
    if events != [] { OneCall(events[0], CalculatedKind, j.jobId); assert events == [events[0]]; }
  }

  lemma ConsentAnswersOnce(j: Job, digests: Option<DigestAnswer>, state: Option<string>)
    ensures
      var o := BeginConsent(j, digests, state);
      && Calls(o.events, CalculatedKind, j.jobId) <= 1
      && (o.ok ==> Calls(o.events, CalculatedKind, j.jobId) == 1 && o.job.pendingLeg.SignLeg? && o.job.state == j.state)
  {
    var c := CalculateDigests(j, j.signingCert, digests);
    var o := BeginConsent(j, digests, state);
    CalculatedOnceAtMost(j, j.signingCert, digests);
    if o.ok {
      var last := o.events[|o.events| - 1];
      CallsConcat(c.events, [last], CalculatedKind, j.jobId);
      OneCall(last, CalculatedKind, j.jobId);
    }
  }

  lemma {:induction false} PreparedIsAnswered(id: string, input: PrepareInput, ans: Answers)
    requires input.flow.Registered() && ValidBatch(input)
    ensures
      var o := Prepared(id, input, ans);
      o.job.state.Failed? || Calls(o.events, CalculatedKind, id) == Answered(o.job)
  {
    CreatedIsDrafted(id, input, ans.sessions);
    BegunIsAnswered(CreateSessions(NewJob(id, input), ans.sessions).job, input, ans);
  }

  lemma BegunIsAnswered(j: Job, input: PrepareInput, ans: Answers)
    requires j.state.Preparing? && j.pendingLeg.NoLeg? && j.flow == input.flow && j.flow.Registered()
    ensures
      var o := Begin(j, input, ans);
      o.job.state.Failed? || Calls(o.events, CalculatedKind, j.jobId) == Answered(o.job)
  {
    if input.flow.IsClientSide() {
      CalculatedOnceAtMost(j.(signingCert := input.signingCert, authCert := input.authCert), input.signingCert,
                           ans.digests);
    } else if !input.flow.IsCsc() {
      ConsentAnswersOnce(j, ans.digests, ans.state);
      var j1 :=
        j.(signIdentityId := input.signIdentityId, signingCert := input.signingCert, authCert := input.authCert);
      ConsentAnswersOnce(j1, ans.digests, ans.state);
    }
  }

  lemma ProfileAnswersOnce(j: Job, ans: Answers)
    ensures
      var a := AdvanceProfile(j, ans);
      && Calls(a.events, CalculatedKind, j.jobId) <= 1
      && (a.verdict.Redirect? ==> Calls(a.events, CalculatedKind, j.jobId) == 1 && a.job.pendingLeg.SignLeg?)
  {
    if ans.token.Some? && ans.identities.Some? {
      var j1 := j.(profileToken := ans.token.value.access);
      var ids := ans.identities.value;
      IdentityAnswersOnce(j1, ids, ans);
      OneCall(IdentityInfo(j1, ids), CalculatedKind, j.jobId);
      CallsConcat([IdentityInfo(j1, ids)], TakeIdentity(j1, ids, ans).events, CalculatedKind, j.jobId);
    }
  }

  lemma {:induction false} IdentityAnswersOnce(j: Job, ids: Identities, ans: Answers)
    ensures
      var a := TakeIdentity(j, ids, ans);
      && Calls(a.events, CalculatedKind, j.jobId) <= 1
      && (a.verdict.Redirect? ==> Calls(a.events, CalculatedKind, j.jobId) == 1 && a.job.pendingLeg.SignLeg?)
  {
    if ids.signing.Some? && ids.signingCert.Some? && ids.authCert.Some? {
      var j3 := j.(signIdentityId := ids.signing.value, signingCert := ids.signingCert.value,
                   authCert := ids.authCert.value);
      ConsentAnswersOnce(j3, ans.digests, ans.state);
    }
  }

  lemma CredentialAnswersOnce(j: Job, token: Token, ans: Answers)
    ensures
      var a := AdvanceCredential(j, token, ans);
      && Calls(a.events, CalculatedKind, j.jobId) <= 1
      && (a.verdict.Redirect? ==> Calls(a.events, CalculatedKind, j.jobId) == 1 && a.job.pendingLeg.SignLeg?)
  {
    if token.credentialId != "" && ans.credential.Some? {
      var cred := ans.credential.value;
      if cred.maySign && cred.leaf.Some? {
        GrantedAnswersOnce(j, token, ans);
      } else {
        OneCall(CredentialInfo(j, token.credentialId, cred.credentialId, cred.leaf), CalculatedKind, j.jobId);
      }
    }
  }

  lemma {:induction false} GrantedAnswersOnce(j: Job, token: Token, ans: Answers)
    requires token.credentialId != "" && ans.credential.Some?
      && ans.credential.value.maySign && ans.credential.value.leaf.Some?
    ensures
      var a := AdvanceCredential(j, token, ans);
      && Calls(a.events, CalculatedKind, j.jobId) <= 1
      && (a.verdict.Redirect? ==> Calls(a.events, CalculatedKind, j.jobId) == 1 && a.job.pendingLeg.SignLeg?)
  {
    var cred := ans.credential.value;
    var info := CredentialInfo(j, token.credentialId, cred.credentialId, cred.leaf);
    var j1 := j.(credentialId := cred.credentialId, signingCert := cred.leaf.value);
    var c := CalculateDigests(j1, j1.signingCert, ans.digests);
    OneCall(info, CalculatedKind, j.jobId);
    CalculatedOnceAtMost(j1, j1.signingCert, ans.digests);
    if !c.ok || Digests(c.job.documents).None? {
      CallsConcat([info], c.events, CalculatedKind, j.jobId);
    } else {
      var a := RequestSignature(c.job, Digests(c.job.documents).value, cred, ans);
      PushAsksNothing(c.job, Digests(c.job.documents).value, cred, ans);
      ThreeParts([info], c.events, a.events, j.jobId);
    }
  }

  lemma {:induction false} ThreeParts(a: seq<Event>, b: seq<Event>, c: seq<Event>, id: string)
    ensures Calls(a + b + c, CalculatedKind, id)
      == Calls(a, CalculatedKind, id) + Calls(b, CalculatedKind, id) + Calls(c, CalculatedKind, id)
  {
    CallsConcat(a + b, c, CalculatedKind, id);
    CallsConcat(a, b, CalculatedKind, id);
  }

  lemma PushAsksNothing(j: Job, digests: seq<seq<Byte>>, cred: Credential, ans: Answers)
    ensures Calls(RequestSignature(j, digests, cred, ans).events, CalculatedKind, j.jobId) == 0
  {
    var events := RequestSignature(j, digests, cred, ans).events;
    if events != [] { OneCall(events[0], CalculatedKind, j.jobId); assert events == [events[0]]; }
  }

  /** A callback asks at most once, past the earlier legs not at all, and when it redirects exactly once. */
  lemma CalledBackIsAnswered(j: Job, declined: bool, ans: Answers)
    requires WellFormed(j)
    ensures
      var a := CalledBack(j, declined, ans);
      var asked := Calls(a.events, CalculatedKind, j.jobId);
      && asked <= 1 && (Answered(j) == 1 ==> asked == 0)
      && (a.job.state.Failed? || (!j.state.Failed? && asked + Answered(j) == Answered(a.job) == 1))
  {
    CallbackAdvances(j, ans);
    if Answered(j) == 1 {
      LaterLegsAskNothing(j, ans);
    } else if j.flow.IsTrustedX() {
      ProfileAnswersOnce(j, ans);
    } else if ans.token.Some? {
      CredentialAnswersOnce(j.(pkceVerifier := ""), ans.token.value, ans);
    }
  }

  lemma LaterLegsAskNothing(j: Job, ans: Answers)
    requires Answered(j) == 1
    ensures Calls(AdvanceCallback(j, ans).events, CalculatedKind, j.jobId) == 0
  {
    var events := AdvanceCallback(j, ans).events;
    if events != [] { OneCall(events[0], CalculatedKind, j.jobId); assert events == [events[0]]; }
  }

  // ---- Effects ----

  /** The effect's CalculateDigest answers are those the copy it makes shows. */
  ghost predicate Asks(s: Sys, e: Effect) {
    match e
    case Creates(j, events, _) => j.state.Failed? || Calls(events, CalculatedKind, j.jobId) == Answered(j)
    case Settles(before, after, events, _, _, _) =>
      var asked := Calls(events, CalculatedKind, before.jobId);
      && asked <= 1 && (Answered(before) == 1 ==> asked == 0)
      && (after.state.Failed? || (!before.state.Failed? && asked + Answered(before) == Answered(after) == 1))
    case _ => forall c :: c in Made(s, e) ==> !c.Calculated?
  }

  lemma SubmitAsksNothing(cfg: Config, j: Job, sigs: seq<Submitted>)
    requires WellFormed(j) && Submit(cfg, j, sigs).Some?
    ensures !j.state.Failed? && Answered(Submit(cfg, j, sigs).value) == Answered(j) == 1
  {
    AttachedKeeps(j.documents, sigs);
  }

  lemma HandlerAsks(cfg: Config, s: Sys, step: Step)
    requires Shaped(s) && (step.Prepare? || step.Callback? || step.SubmitSignatures?)
    ensures Asks(s, EffectOf(cfg, s, step))
  {
    var e := EffectOf(cfg, s, step);
    match step
    case Prepare(id, input, ans, _) =>
      if Admitted(cfg, input) {
        PreparedIsAnswered(id, input, ans);
        PreparedIsWellFormed(id, input, ans);
      }
    case Callback(state, declined, ans, _, _, _) =>
      if e.Settles? {
        StoredIsWellFormed(s, s.index[state]);
        CalledBackIsAnswered(e.before, declined, ans);
      }
    case SubmitSignatures(id, sigs, _, _) =>
      if e.Settles? {
        StoredIsWellFormed(s, id);
        SubmitAsksNothing(cfg, e.before, sigs);
      }
    case _ =>
  }

  lemma WorkerAsks(cfg: Config, s: Sys, step: Step)
    requires !step.Prepare? && !step.Callback? && !step.SubmitSignatures?
    ensures forall c :: c in Made(s, EffectOf(cfg, s, step)) ==> !c.Calculated?
  {
    match step
    case ArchiveJobDocument(_, _) => ArchiveMakes(cfg, s, step);
    case WorkerSign(w, ans) =>
      SignMakes(cfg, s, step);
      if s.WorkOf(w).ToSign? && s.WorkOf(w).job.flow.IsCsc() { SignCscCalls(s.WorkOf(w).job, ans); }
    case WorkerPush(_, _) => PushMakes(cfg, s, step);
    case WorkerFinalize(w, taken) =>
      FinalizeMakes(cfg, s, step);
      if s.WorkOf(w).ToFinalize? { FinalizingCalls(cfg, s.WorkOf(w).job, taken); }
    case _ => SilentMakes(cfg, s, step);
  }

  lemma EffectAsks(cfg: Config, s: Sys, step: Step)
    requires Shaped(s)
    ensures Asks(s, EffectOf(cfg, s, step))
  {
    if step.Prepare? || step.Callback? || step.SubmitSignatures? {
      HandlerAsks(cfg, s, step);
    } else {
      WorkerAsks(cfg, s, step);
    }
  }

  // ---- Answers that reached the store ----

  /** The answers an effect brings a job in a Save that is written. */
  function AppliedBy(e: Effect, id: string): nat {
    if (e.Creates? || e.Settles?) && e.save.Written() then Calls(e.events, CalculatedKind, id) else 0
  }

  /** How many answers a run has applied to a job and written to the store. */
  function Applied(run: seq<Move>, id: string): nat {
    if run == [] then 0
    else
      var (s, m) := (After(run[..|run| - 1]), run[|run| - 1]);
      Applied(run[..|run| - 1], id) + AppliedBy(EffectOf(m.cfg, s, m.step), id)
  }

  /** How many CalculateDigest answers the effect brings a job. */
  lemma {:induction false} Asked(s: Sys, e: Effect, id: string)
    requires Asks(s, e) && Sparing(s, e)
    ensures Calls(Effected(s, e).log, CalculatedKind, id)
      == Calls(s.log, CalculatedKind, id) + Calls(Made(s, e), CalculatedKind, id)
    ensures !e.Creates? && !e.Settles? ==> Calls(Made(s, e), CalculatedKind, id) == 0
    ensures e.Creates? && e.job.jobId != id ==> Calls(Made(s, e), CalculatedKind, id) == 0
    ensures e.Settles? ==>
      Calls(Made(s, e), CalculatedKind, id) == if e.before.jobId == id then Calls(e.events, CalculatedKind, id) else 0
  {
    LogGrows(s, e);
    CallsConcat(s.log, Made(s, e), CalculatedKind, id);
    MadeAsks(s, e, id);
  }

  lemma {:induction false} MadeAsks(s: Sys, e: Effect, id: string)
    requires Asks(s, e) && Sparing(s, e)
    ensures !e.Creates? && !e.Settles? ==> Calls(Made(s, e), CalculatedKind, id) == 0
    ensures e.Creates? && e.job.jobId != id ==> Calls(Made(s, e), CalculatedKind, id) == 0
    ensures e.Settles? ==>
      Calls(Made(s, e), CalculatedKind, id) == if e.before.jobId == id then Calls(e.events, CalculatedKind, id) else 0
  {
    match e
    case Creates(_, events, _) => ForeignIsUnasked(events, e.job.jobId, id);
    case Settles(_, after, events, _, _, enqueued) =>
      ForeignIsUnasked(events, e.before.jobId, id);
      if enqueued { EnqueueAsksNothing(events, after, id); }
    case _ => AbsentIsUncalled(Made(s, e), CalculatedKind, id);
  }

  lemma {:induction false} ForeignIsUnasked(events: seq<Event>, x: string, id: string)
    requires Preliminary(events, x)
    ensures x != id ==> Calls(events, CalculatedKind, id) == 0
  {
    if x != id { AbsentIsUncalled(events, CalculatedKind, id); }
  }

  lemma {:induction false} EnqueueAsksNothing(events: seq<Event>, j: Job, id: string)
    ensures Calls(events + [Enqueue(j)], CalculatedKind, id) == Calls(events, CalculatedKind, id)
  {
    CallsConcat(events, [Enqueue(j)], CalculatedKind, id);
    OneCall(Enqueue(j), CalculatedKind, id);
  }

  lemma {:induction false} AppliedIsMade(s: Sys, e: Effect, id: string)
    requires Asks(s, e) && Sparing(s, e)
    ensures AppliedBy(e, id) <= Calls(Made(s, e), CalculatedKind, id)
    ensures !e.Creates? && !e.Settles? ==> AppliedBy(e, id) == 0
    ensures e.Creates? && e.job.jobId != id ==> AppliedBy(e, id) == 0
    ensures e.Settles? && e.before.jobId != id ==> AppliedBy(e, id) == 0
  {
    MadeAsks(s, e, id);
    if e.Creates? { ForeignIsUnasked(e.events, e.job.jobId, id); }
    if e.Settles? { ForeignIsUnasked(e.events, e.before.jobId, id); }
  }

  lemma {:induction false} AppliedIsLogged(run: seq<Move>, id: string)
    requires Possible(run)
    ensures Applied(run, id) <= Calls(After(run).log, CalculatedKind, id)
  {
    if run != [] {
      var (init, m) := (run[..|run| - 1], run[|run| - 1]);
      PossiblePrefix(run);
      AppliedIsLogged(init, id);
      AskingStep(init, m);
      Asked(After(init), EffectOf(m.cfg, After(init), m.step), id);
      AppliedIsMade(After(init), EffectOf(m.cfg, After(init), m.step), id);
    }
  }

  lemma {:induction false} AskingStep(init: seq<Move>, m: Move)
    requires Possible(init) && Fresh(After(init), m.step)
    ensures var e := EffectOf(m.cfg, After(init), m.step); Good(After(init), e) && Asks(After(init), e)
  {
    AlwaysShaped(init);
    AlwaysOnce(init);
    GoodStep(m.cfg, After(init), m.step);
    EffectAsks(m.cfg, After(init), m.step);
  }

  /** So many answers are what the job shows, unless it has failed. */
  ghost predicate Tallied(n: nat, j: Job) {
    j.state.Failed? || n == Answered(j)
  }

  /** Every copy of the job that the store or a worker has shows n answers. */
  ghost predicate CopiesTallied(s: Sys, id: string, n: nat) {
    && (id !in s.used ==> n == 0)
    && (id in s.jobs ==> Tallied(n, s.jobs[id]))
    && (forall w :: w in s.workers && s.workers[w].Copy() && s.workers[w].job.jobId == id ==>
      Tallied(n, s.workers[w].job))
  }

  lemma StoredIsTallied(s: Sys, e: Effect, id: string, n: nat)
    requires Good(s, e) && Asks(s, e) && CopiesTallied(s, id, n) && id in Effected(s, e).jobs
    ensures Tallied(n + AppliedBy(e, id), Effected(s, e).jobs[id])
  {
    AppliedIsMade(s, e, id);
    match e
    case Creates(j, _, _) =>
      CreatedForm(s, e);
      CreatedIsWritten(s, e);
    case Settles(before, _, _, _, _, _) =>
      SettledJobs(s, e);
      StoredIsWellFormed(s, before.jobId);
    case Writes(w, _, _) => WrittenJobs(s, e);
    case _ => StoredFrom(s, e, id);
  }

  lemma HeldIsTallied(s: Sys, e: Effect, w: nat, n: nat)
    requires Good(s, e) && Asks(s, e) && w in Effected(s, e).workers && Effected(s, e).workers[w].Copy()
    requires CopiesTallied(s, Effected(s, e).workers[w].job.jobId, n)
    ensures Tallied(n + AppliedBy(e, Effected(s, e).workers[w].job.jobId), Effected(s, e).workers[w].job)
  {
    HeldFrom(s, e, w);
    HeldIsUnasked(s, e, w);
    if (e.Works? || e.Writes?) && w == e.w && s.workers[w].Got? { StoredIsWellFormed(s, s.workers[w].id); }
  }

  /** No effect asks CalculateDigest for a job a worker holds. */
  lemma HeldIsUnasked(s: Sys, e: Effect, w: nat)
    requires Good(s, e) && Asks(s, e) && w in Effected(s, e).workers && Effected(s, e).workers[w].Copy()
    ensures Calls(Made(s, e), CalculatedKind, Effected(s, e).workers[w].job.jobId) == 0
    ensures AppliedBy(e, Effected(s, e).workers[w].job.jobId) == 0
  {
    var id := Effected(s, e).workers[w].job.jobId;
    HeldFrom(s, e, w);
    MadeAsks(s, e, id);
    AppliedIsMade(s, e, id);
    if e.Creates? { HeldIsWellFormed(s, w); }
    if e.Settles? {
      HolderIsPast(s, w);
      StoredIsWellFormed(s, e.before.jobId);
    }
  }

  lemma TalliedEffect(s: Sys, e: Effect, id: string, n: nat)
    requires Good(s, e) && Asks(s, e) && CopiesTallied(s, id, n)
    ensures CopiesTallied(Effected(s, e), id, n + AppliedBy(e, id))
  {
    var s' := Effected(s, e);
    UsedStays(s, e);
    AppliedIsMade(s, e, id);
    if id !in s'.used && e.Settles? { StoredIsWellFormed(s, e.before.jobId); }
    if id in s'.jobs { StoredIsTallied(s, e, id, n); }
    forall w | w in s'.workers && s'.workers[w].Copy() && s'.workers[w].job.jobId == id
      ensures Tallied(n + AppliedBy(e, id), s'.workers[w].job) { HeldIsTallied(s, e, w, n); }
  }

  lemma {:induction false} AlwaysTallied(run: seq<Move>, id: string)
    requires Possible(run)
    ensures CopiesTallied(After(run), id, Applied(run, id))
  {
    if run != [] {
      var (init, m) := (run[..|run| - 1], run[|run| - 1]);
      PossiblePrefix(run);
      AlwaysTallied(init, id);
      AskingStep(init, m);
      TalliedEffect(After(init), EffectOf(m.cfg, After(init), m.step), id, Applied(init, id));
    }
  }

  /**
   Whatever Redis loses, a stored job that has not failed has had exactly one answer applied from
   the signature leg on, and none before.
   */
  lemma {:induction false} AppliedAtMostOnce(run: seq<Move>, id: string)
    requires Possible(run) && id in After(run).jobs && !After(run).jobs[id].state.Failed?
    ensures Applied(run, id) == Answered(After(run).jobs[id]) <= 1
  {
    AlwaysTallied(run, id);
  }

  // ---- Answers asked for ----

  /** No callback loses both the clearing of its state and its Save. */
  predicate Kept(step: Step) {
    step.Callback? ==> step.cleared || step.save.Written()
  }

  ghost predicate CallbacksKept(run: seq<Move>) {
    forall k :: 0 <= k < |run| ==> Kept(run[k].step)
  }

  /** What such a callback does: it resolves to its job, and afterwards its state is gone or its job is stored. */
  ghost predicate Keeps(s: Sys, e: Effect) {
    e.Settles? && e.events != [] ==>
      && !Unindexed(s.index, e.before.jobId)
      && (e.save.Written()
        || (e.cleared.Some? && e.cleared.value in s.index && s.index[e.cleared.value] == e.before.jobId))
  }

  lemma KeptKeeps(cfg: Config, s: Sys, step: Step)
    requires Shaped(s) && Kept(step)
    ensures Keeps(s, EffectOf(cfg, s, step))
  {
    if step.Callback? && step.state in s.index && s.index[step.state] in s.jobs {
      StoredIsWellFormed(s, s.index[step.state]);
    }
  }

  ghost predicate Unindexed(index: map<string, string>, id: string) {
    forall st :: st in index ==> index[st] != id
  }

  ghost predicate OwnStateOnly(index: map<string, string>, j: Job) {
    forall st :: st in index && index[st] == j.jobId ==> st == j.oauthState
  }

  /**
   How often a stored job has been asked for: once from the signature leg on; before it not at all,
   or once with no callback that could still resolve to it.
   */
  ghost predicate Logged(index: map<string, string>, n: nat, j: Job) {
    || j.state.Failed?
    || (Answered(j) == 1 && n == 1)
    || (Answered(j) == 0 && n == 0 && OwnStateOnly(index, j))
    || (Answered(j) == 0 && n == 1 && Unindexed(index, j.jobId))
  }

  ghost predicate CopiesLogged(s: Sys, id: string) {
    var n := Calls(s.log, CalculatedKind, id);
    && (id in s.jobs ==> Logged(s.index, n, s.jobs[id]))
    && (forall w :: w in s.workers && s.workers[w].Copy() && s.workers[w].job.jobId == id ==>
          s.workers[w].job.state.Failed? || (Answered(s.workers[w].job) == 1 && n == 1))
  }

  /** No state resolves to the job that did not before. */
  ghost predicate Fewer(index: map<string, string>, index': map<string, string>, id: string) {
    forall st :: st in index' && index'[st] == id ==> st in index && index[st] == id
  }

  lemma LoggedCarries(index: map<string, string>, index': map<string, string>, n: nat, j: Job)
    requires Logged(index, n, j) && Fewer(index, index', j.jobId)
    ensures Logged(index', n, j)
  {
  }

  lemma {:induction false} SettledIsLogged(s: Sys, e: Effect, id: string)
    requires Good(s, e) && Asks(s, e) && Keeps(s, e) && e.Settles? && CopiesLogged(s, id) && id in Effected(s, e).jobs
    ensures Logged(Effected(s, e).index, Calls(Effected(s, e).log, CalculatedKind, id), Effected(s, e).jobs[id])
  {
    var s' := Effected(s, e);
    Asked(s, e, id);
    SettledJobs(s, e);
    SettledIndexForm(s, e);
    StoredIsWellFormed(s, e.before.jobId);
    if id != e.before.jobId {
      StoredIsWellFormed(s, id);
      SettledIndexElsewhere(s, e, id);
      LoggedCarries(s.index, s'.index, Calls(s.log, CalculatedKind, id), s.jobs[id]);
    } else {
      ResettledIsLogged(e, s.index, s'.index, Calls(s.log, CalculatedKind, id), s'.jobs[id]);
    }
  }

  lemma SettledIndexElsewhere(s: Sys, e: Effect, id: string)
    requires e.Settles? && e.after.jobId != id
    ensures Fewer(s.index, Effected(s, e).index, id)
  {
    SettledIndexForm(s, e);
  }

  /** The job a callback resolved to: stored anew, or as it was with its state gone or nothing asked. */
  lemma ResettledIsLogged(e: Effect, index: map<string, string>, index': map<string, string>, n: nat, j: Job)
    requires e.Settles? && Logged(index, n, e.before)
    requires
      var asked := Calls(e.events, CalculatedKind, e.before.jobId);
      && asked <= 1 && (Answered(e.before) == 1 ==> asked == 0)
      && (e.after.state.Failed? || (!e.before.state.Failed? && asked + Answered(e.before) == Answered(e.after) == 1))
    requires e.events != [] ==> !Unindexed(index, e.before.jobId)
    requires if e.save.Written() then j == e.after
             else j == e.before && index' == if e.cleared.Some? then index - {e.cleared.value} else index
    requires e.events != [] && !e.save.Written() ==>
      e.cleared.Some? && e.cleared.value in index && index[e.cleared.value] == e.before.jobId
    ensures Logged(index', n + Calls(e.events, CalculatedKind, e.before.jobId), j)
  {
  }

  lemma {:induction false} CreatedIsLogged(s: Sys, e: Effect, id: string)
    requires Good(s, e) && Asks(s, e) && Owned(s) && e.Creates? && CopiesLogged(s, id) && id in Effected(s, e).jobs
    ensures Logged(Effected(s, e).index, Calls(Effected(s, e).log, CalculatedKind, id), Effected(s, e).jobs[id])
  {
    var s' := Effected(s, e);
    Asked(s, e, id);
    CreatedForm(s, e);
    if id != e.job.jobId {
      StoredIsWellFormed(s, id);
      LoggedCarries(s.index, s'.index, Calls(s.log, CalculatedKind, id), s.jobs[id]);
    } else {
      UnusedIsUncalled(s, id);
      CreatedIsWritten(s, e);
      OwnedIsUsed(s, id);
      NewIsLogged(s.index, s'.index, Calls(e.events, CalculatedKind, id), e.job);
    }
  }

  lemma NewIsLogged(index: map<string, string>, index': map<string, string>, n: nat, j: Job)
    requires Unindexed(index, j.jobId) && (j.state.Failed? || n == Answered(j))
    requires index' == index || index' == index[j.oauthState := j.jobId]
    ensures Logged(index', n, j)
  {
  }

  lemma CreatedForm(s: Sys, e: Effect)
    requires e.Creates?
    ensures
      var (s', j) := (Effected(s, e), e.job);
      && s'.jobs == (if e.save.Written() then s.jobs[j.jobId := j] else s.jobs)
      && s'.index == (if e.save.Indexed() && j.oauthState != "" then s.index[j.oauthState := j.jobId] else s.index)
      && Made(s, e) == e.events
  {
  }

  /** A new job is in the store only by its own Save. */
  lemma CreatedIsWritten(s: Sys, e: Effect)
    requires Shaped(s) && Once(s) && Sparing(s, e) && e.Creates?
    ensures e.job.jobId !in s.jobs
  {
    if e.job.jobId in s.jobs { StoredIsWellFormed(s, e.job.jobId); }
  }

  lemma OwnedIsUsed(s: Sys, id: string)
    requires Owned(s) && id !in s.used
    ensures Unindexed(s.index, id)
  {
  }

  lemma {:induction false} WrittenIsLogged(s: Sys, e: Effect, id: string)
    requires Good(s, e) && Asks(s, e) && e.Writes? && CopiesLogged(s, id) && id in Effected(s, e).jobs
    ensures Logged(Effected(s, e).index, Calls(Effected(s, e).log, CalculatedKind, id), Effected(s, e).jobs[id])
  {
    var (s', x) := (Effected(s, e), s.workers[e.w].job.jobId);
    Asked(s, e, id);
    WrittenJobs(s, e);
    if id in s.jobs { StoredIsWellFormed(s, id); }
    if id != x || !e.save.Written() {
      WrittenIndexElsewhere(s, e, id);
      LoggedCarries(s.index, s'.index, Calls(s.log, CalculatedKind, id), s.jobs[id]);
    }
  }

  lemma WrittenIndexElsewhere(s: Sys, e: Effect, id: string)
    requires e.Writes? && s.WorkOf(e.w).Copy() && (id != s.WorkOf(e.w).job.jobId || !e.save.Written())
    ensures Fewer(s.index, Effected(s, e).index, id)
  {
  }

  lemma {:induction false} OtherIsLogged(s: Sys, e: Effect, id: string)
    requires Good(s, e) && Asks(s, e) && !e.Creates? && !e.Settles? && !e.Writes? && CopiesLogged(s, id)
      && id in Effected(s, e).jobs
    ensures Logged(Effected(s, e).index, Calls(Effected(s, e).log, CalculatedKind, id), Effected(s, e).jobs[id])
  {
    Asked(s, e, id);
    StoredFrom(s, e, id);
    StoredIsWellFormed(s, id);
    LoggedCarries(s.index, Effected(s, e).index, Calls(s.log, CalculatedKind, id), s.jobs[id]);
  }

  lemma HeldIsLogged(s: Sys, e: Effect, w: nat)
    requires Good(s, e) && Asks(s, e) && w in Effected(s, e).workers && Effected(s, e).workers[w].Copy()
    requires CopiesLogged(s, Effected(s, e).workers[w].job.jobId)
    ensures
      var j := Effected(s, e).workers[w].job;
      j.state.Failed? || (Answered(j) == 1 && Calls(Effected(s, e).log, CalculatedKind, j.jobId) == 1)
  {
    HeldFrom(s, e, w);
    HeldIsUnasked(s, e, w);
    Asked(s, e, Effected(s, e).workers[w].job.jobId);
    if (e.Works? || e.Writes?) && w == e.w && s.workers[w].Got? { StoredIsWellFormed(s, s.workers[w].id); }
  }

  lemma LoggedEffect(s: Sys, e: Effect, id: string)
    requires Good(s, e) && Asks(s, e) && Keeps(s, e) && Owned(s) && CopiesLogged(s, id)
    ensures CopiesLogged(Effected(s, e), id)
  {
    var s' := Effected(s, e);
    if id in s'.jobs {
      match e
      case Creates(_, _, _) => CreatedIsLogged(s, e, id);
      case Settles(_, _, _, _, _, _) => SettledIsLogged(s, e, id);
      case Writes(_, _, _) => WrittenIsLogged(s, e, id);
      case _ => OtherIsLogged(s, e, id);
    }
    forall w | w in s'.workers && s'.workers[w].Copy() && s'.workers[w].job.jobId == id
      ensures s'.workers[w].job.state.Failed?
              || (Answered(s'.workers[w].job) == 1 && Calls(s'.log, CalculatedKind, id) == 1) { HeldIsLogged(s, e, w); }
  }

  lemma {:induction false} AlwaysLogged(run: seq<Move>, id: string)
    requires Possible(run) && CallbacksKept(run)
    ensures CopiesLogged(After(run), id)
  {
    if run != [] {
      var (init, m) := (run[..|run| - 1], run[|run| - 1]);
      PossiblePrefix(run);
      assert forall k :: 0 <= k < |init| ==> init[k] == run[k];
      AlwaysLogged(init, id);
      AlwaysOwned(init);
      AlwaysShaped(init);
      AskingStep(init, m);
      KeptKeeps(m.cfg, After(init), m.step);
      LoggedEffect(After(init), EffectOf(m.cfg, After(init), m.step), id);
    }
  }

  /**
   Unless a callback loses both the clearing of its state and its Save, CalculateDigest is answered
   at most once for a stored job that has not failed, and exactly once from the signature leg on.
   */
  lemma {:induction false} CalculatedAtMostOnce(run: seq<Move>, id: string)
    requires Possible(run) && CallbacksKept(run) && id in After(run).jobs && !After(run).jobs[id].state.Failed?
    ensures Answered(After(run).jobs[id]) <= Calls(After(run).log, CalculatedKind, id) <= 1
  {
    AlwaysLogged(run, id);
  }

  /** In such a run, what the job shows of an answer is what the one and only answer said. */
  lemma {:induction false} ShowsTheOnlyAnswer(run: seq<Move>, id: string)
    requires Possible(run) && CallbacksKept(run) && id in After(run).jobs && !After(run).jobs[id].state.Failed?
    requires Answered(After(run).jobs[id]) == 1
    ensures exists c :: c in After(run).log && FromAnswer(After(run).jobs[id], c) && OnlyOne(After(run).log, c)
  {
    var s := After(run);
    CalculatedAtMostOnce(run, id);
    AlwaysShaped(run);
    AlwaysSound(run);
    StoredIsWellFormed(s, id);
    OnlyAnswer(s.log, s.jobs[id]);
  }

  lemma {:induction false} OnlyAnswer(log: seq<Event>, j: Job)
    requires Sound(j, log) && !j.state.Failed? && Answered(j) == 1 && Calls(log, CalculatedKind, j.jobId) == 1
    ensures exists c :: c in log && FromAnswer(j, c) && OnlyOne(log, c)
  {
    var c :| c in log && FromAnswer(j, c);
    forall h | h in log && KindOf(h) == KindOf(c) && Subject(h) == Subject(c)
      ensures h == c { CalledOnceIsUnique(log, h, c); }
  }
  // ---- An answer asked for twice ----

  const PROFILE := INPUT.(signIdentityId := "")
  const IDENTIFIED := ANSWERS.(identities := Some(Identities(Some("i"), Some("c"), true, Some("a"))))

  /** The store holds one mobile job on its profile leg, its document in one session. */
  ghost predicate OnProfileLeg(s: Sys, j: Job) {
    && "j" in s.jobs && s.jobs["j"] == j && "x" in s.index && s.index["x"] == "j"
    && j.jobId == "j" && j.oauthState == "x" && j.flow.EparakstsMobile? && j.pendingLeg.ProfileLeg?
      && j.state.AwaitingAuthorization?
    && |j.documents| == 1 && j.documents[0].sessionId == "s"
  }

  lemma ProfileRun() returns (run: seq<Move>, j: Job)
    ensures Possible(run) && OnProfileLeg(After(run), j) && After(run).minted.Keys == {"x"} && After(run).log == []
  {
    var c := CreateSessions(NewJob("j", PROFILE), ANSWERS.sessions);
    assert UploadedCount(ANSWERS.sessions, 1) == 1;
    assert c.ok && c.job.documents[0].sessionId == "s";
    j := Prepared("j", PROFILE, ANSWERS).job;
    run := Extends([], Prepare("j", PROFILE, ANSWERS, Saved));
  }

  lemma ProfileRedirects(j: Job, state: string)
    requires j.jobId == "j" && j.flow.EparakstsMobile? && j.pendingLeg.ProfileLeg? && j.state.AwaitingAuthorization?
    requires |j.documents| == 1 && j.documents[0].sessionId == "s"
    ensures
      var a := CalledBack(j, false, IDENTIFIED.(state := Some(state)));
      && a.verdict.Redirect? && Calls(a.events, CalculatedKind, "j") == 1 && a.job.jobId == "j" && !a.job.state.Failed?
      && a.job.oauthState == state
  {
    var ans := IDENTIFIED.(state := Some(state));
    var j3 := j.(profileToken := "t", signIdentityId := "i", signingCert := "c", authCert := "a");
    var answers := ans.digests.value.sessions;
    assert LastFor(answers, "s") == Some("d");
    assert Covered(j3.documents, answers) == 1 + Covered(j3.documents[1..], answers) == 1;
    BeginConsentIsAlike(j3, ans.digests, ans.state);
    ProfileAnswersOnce(j, ans);
  }

  lemma LostCallback(s: Sys, j: Job)
    requires OnProfileLeg(s, j) && s.minted.Keys == {"x"} && s.log == []
    ensures
      var s' := Next(CONFIG, s, Callback("x", false, IDENTIFIED.(state := Some("y")), false, Unwritten, true));
      OnProfileLeg(s', j) && s'.minted.Keys == {"x", "y"} && Calls(s'.log, CalculatedKind, "j") == 1
  {
    ProfileRedirects(j, "y");
    var e := EffectOf(CONFIG, s, Callback("x", false, IDENTIFIED.(state := Some("y")), false, Unwritten, true));
    SettledStore(s, e);
    SettledIndexForm(s, e);
    SettledRetired(s, e);
    LogGrows(s, e);
    assert [] + e.events == e.events;
  }

  lemma RepeatedCallback(s: Sys, j: Job)
    requires OnProfileLeg(s, j) && Calls(s.log, CalculatedKind, "j") == 1
    ensures
      var s' := Next(CONFIG, s, Callback("x", false, IDENTIFIED.(state := Some("z")), true, Saved, true));
      "j" in s'.jobs && !s'.jobs["j"].state.Failed? && Calls(s'.log, CalculatedKind, "j") == 2
  {
    ProfileRedirects(j, "z");
    var e := EffectOf(CONFIG, s, Callback("x", false, IDENTIFIED.(state := Some("z")), true, Saved, true));
    SettledStore(s, e);
    LogGrows(s, e);
    CallsConcat(s.log, e.events, CalculatedKind, "j");
  }

  /** A run in which a callback loses both, and CalculateDigest is answered twice for a job that has not failed. */
  lemma CountCanBeTwo() returns (run: seq<Move>)
    ensures Possible(run) && "j" in After(run).jobs && !After(run).jobs["j"].state.Failed?
    ensures Calls(After(run).log, CalculatedKind, "j") == 2
  {
    var run1, j := ProfileRun();
    var run2 := LostRun(run1, j);
    run := RepeatedRun(run2, j);
  }

  lemma {:induction false} RepeatedRun(run2: seq<Move>, j: Job) returns (run: seq<Move>)
    requires Possible(run2) && OnProfileLeg(After(run2), j) && After(run2).minted.Keys == {"x", "y"}
    requires Calls(After(run2).log, CalculatedKind, "j") == 1
    ensures Possible(run) && "j" in After(run).jobs && !After(run).jobs["j"].state.Failed?
    ensures Calls(After(run).log, CalculatedKind, "j") == 2
  {
    RepeatedCallback(After(run2), j);
    assert "z" !in After(run2).minted.Keys;
    run := Extends(run2, Callback("x", false, IDENTIFIED.(state := Some("z")), true, Saved, true));
  }

  lemma {:induction false} LostRun(run1: seq<Move>, j: Job) returns (run: seq<Move>)
    requires Possible(run1) && OnProfileLeg(After(run1), j) && After(run1).minted.Keys == {"x"} && After(run1).log == []
    ensures Possible(run) && OnProfileLeg(After(run), j) && After(run).minted.Keys == {"x", "y"}
    ensures Calls(After(run).log, CalculatedKind, "j") == 1
  {
    LostCallback(After(run1), j);
    assert "y" !in After(run1).minted.Keys;
    run := Extends(run1, Callback("x", false, IDENTIFIED.(state := Some("y")), false, Unwritten, true));
  }
}
