/**
 The OAuth-state index. Whatever Redis loses, a state belongs to the one job it was minted for,
 and a pushed or consented authorization is the only one under its state. When every Redis write
 succeeds, the index is exactly the stored jobs' current states, so a callback acts on its
 job's current leg and the state of an earlier leg never resolves again.
 */
module StateIndex {
  import opened Wrappers
  import opened Jobs
  import opened Upstream
  import opened AuthCert
  import opened Flows
  import opened Machine
  import opened Copies
  import opened Shape
  import opened AtMostOnce

  // ---- Job level: which state a handler leaves on a job ----

  /** The state of the job is the one it had, or the fresh one offered for the next leg. */
  ghost predicate Stamped(was: string, j: Job, offered: Option<string>) {
    j.oauthState == was || offered == Some(j.oauthState)
  }

  lemma PreparedIsStamped(id: string, input: PrepareInput, ans: Answers)
    ensures Stamped("", Prepared(id, input, ans).job, ans.state)
  {
    var c := CreateSessions(NewJob(id, input), ans.sessions).job;
    BegunIsStamped(c, input, ans);
  }

  lemma BegunIsStamped(j: Job, input: PrepareInput, ans: Answers)
    ensures Stamped(j.oauthState, Begin(j, input, ans).job, ans.state)
  {
    if input.flow.IsClientSide() {
      CalculatedIsAlike(j.(signingCert := input.signingCert, authCert := input.authCert), input.signingCert,
                        ans.digests);
    } else {
      BegunRemoteIsStamped(j, input, ans);
    }
  }

  lemma BegunRemoteIsStamped(j: Job, input: PrepareInput, ans: Answers)
    requires !input.flow.IsClientSide()
    ensures Stamped(j.oauthState, Begin(j, input, ans).job, ans.state)
  {
    var supplied := input.signIdentityId != "" && input.signingCert != "" && input.authCert != "";
    var j1 :=
      if input.flow.IsCsc() then j.(authCert := input.authCert)
      else if supplied then
        j.(signIdentityId := input.signIdentityId, signingCert := input.signingCert, authCert := input.authCert)
      else j;
    BegunTrustedXIsStamped(j1, ans);
  }

  lemma BegunTrustedXIsStamped(j: Job, ans: Answers)
    ensures Stamped(j.oauthState, BeginTrustedX(j, ans).job, ans.state)
  {
    BeginConsentIsAlike(j, ans.digests, ans.state);
  }

  lemma CalledBackIsStamped(j: Job, declined: bool, ans: Answers)
    ensures
      var j' := CalledBack(j, declined, ans).job;
      Stamped(j.oauthState, j', ans.state) && (Past(j) ==> j'.oauthState == j.oauthState)
  {
    AdvancedIsStamped(j, ans);
  }

  lemma AdvancedIsStamped(j: Job, ans: Answers)
    ensures
      var j' := AdvanceCallback(j, ans).job;
      Stamped(j.oauthState, j', ans.state)
        && (j.flow.IsClientSide() || j.pendingLeg.NoLeg? ==> j'.oauthState == j.oauthState)
  {
    if j.flow.IsTrustedX() { ProfileIsStamped(j, ans); }
    if j.flow.IsCsc() && ans.token.Some? { CredentialIsStamped(j.(pkceVerifier := ""), ans.token.value, ans); }
  }

  lemma ProfileIsStamped(j: Job, ans: Answers)
    ensures Stamped(j.oauthState, AdvanceProfile(j, ans).job, ans.state)
  {
    if ans.token.Some? && ans.identities.Some? && ans.identities.value.signing.Some? {
      var ids := ans.identities.value;
      var j3 := j.(profileToken := ans.token.value.access, signIdentityId := ids.signing.value,
                   signingCert := if ids.signingCert.None? then "" else ids.signingCert.value,
                   authCert := if ids.authCert.None? then "" else ids.authCert.value);
      BeginConsentIsAlike(j3, ans.digests, ans.state);
    }
  }

  lemma CredentialIsStamped(j: Job, token: Token, ans: Answers)
    ensures Stamped(j.oauthState, AdvanceCredential(j, token, ans).job, ans.state)
  {
    if ans.credential.Some? && ans.credential.value.leaf.Some? {
      var j1 := j.(credentialId := ans.credential.value.credentialId, signingCert := ans.credential.value.leaf.value);
      CalculatedIsAlike(j1, j1.signingCert, ans.digests);
    }
  }

  /** The effect puts no state on a job but the one it had or a fresh one, and clears none but its own. */
  ghost predicate Stamps(s: Sys, e: Effect) {
    match e
    case Creates(j, _, _) => j.oauthState == "" || j.oauthState !in s.minted
    case Settles(before, after, _, cleared, _, _) =>
      && (after.oauthState == before.oauthState || (after.oauthState != "" && after.oauthState !in s.minted))
      && (Past(before) ==> after.oauthState == before.oauthState)
      && (cleared.Some? ==> cleared.value in s.index && s.index[cleared.value] == before.jobId)
    case _ => true
  }

  lemma EffectStamps(cfg: Config, s: Sys, step: Step)
    requires Shaped(s) && Fresh(s, step)
    ensures Stamps(s, EffectOf(cfg, s, step))
  {
    match step
    case Prepare(id, input, ans, save) => PreparedIsStamped(id, input, ans);
    case Callback(_, _, _, _, _, _) => CallbackStamps(cfg, s, step);
    case SubmitSignatures(id, sigs, _, _) =>
      if id in s.jobs && Submit(cfg, s.jobs[id], sigs).Some? { AttachedKeeps(s.jobs[id].documents, sigs); }
    case _ =>
  }

  lemma CallbackStamps(cfg: Config, s: Sys, step: Step)
    requires Shaped(s) && Fresh(s, step) && step.Callback?
    ensures Stamps(s, EffectOf(cfg, s, step))
  {
    var e := EffectOf(cfg, s, step);
    if e.Settles? {
      StoredIsWellFormed(s, s.index[step.state]);
      CalledBackIsStamped(e.before, step.declined, step.ans);
    }
  }

  // ---- Whatever Redis loses ----

  /** Every state on a copy or in the index was minted for that job, and client-side jobs have none. */
  ghost predicate Owned(s: Sys) {
    && "" !in s.minted
    && (forall j :: Known(s, j) && j.oauthState != "" ==> j.oauthState in s.minted && s.minted[j.oauthState] == j.jobId)
    && (forall st :: st in s.index ==> st in s.minted && s.index[st] == s.minted[st])
    && (forall j, st :: Known(s, j) && j.flow.IsClientSide() && st in s.minted ==> s.minted[st] != j.jobId)
    && (forall st :: st in s.minted ==> s.minted[st] in s.used)
  }

  lemma OwnedMinting(s: Sys, e: Effect, st: string)
    requires Shaped(s) && Once(s) && Legal(s, e) && Sparing(s, e) && Stamps(s, e) && Owned(s)
    ensures
      var s' := Effected(s, e);
      && "" !in s'.minted
      && (st in s.minted ==> st in s'.minted && s'.minted[st] == s.minted[st])
      && (st in s'.minted && st !in s.minted ==>
            s'.minted[st] in s'.used && exists j :: Makes(e, j) && s'.minted[st] == j.jobId && !j.flow.IsClientSide())
  {
    match e
    case Settles(before, _, _, _, _, _) =>
      StoredIsWellFormed(s, before.jobId);
      SettledRetired(s, e);
      UsedStays(s, e);
    case Creates(_, _, _) =>
    case _ => NothingMinted(s, e);
  }

  lemma NothingMinted(s: Sys, e: Effect)
    requires !e.Creates? && !e.Settles?
    ensures Effected(s, e).minted == s.minted
  {
  }

  /** The copy a new copy is made from. */
  lemma MadeFrom(s: Sys, e: Effect, j: Job) returns (i: Job)
    requires Shaped(s) && Legal(s, e) && Makes(e, j) && !e.Creates?
    ensures Known(s, i) && i.jobId == j.jobId && i.flow == j.flow
    ensures if e.Settles? then i == e.before else i.oauthState == j.oauthState && i.authCert == j.authCert
  {
    if e.Settles? {
      StoredIsWellFormed(s, e.before.jobId);
      i := e.before;
    } else if s.WorkOf(e.w).Copy() {
      HeldIsWellFormed(s, e.w);
      i := s.WorkOf(e.w).job;
    } else {
      StoredIsWellFormed(s, s.WorkOf(e.w).id);
      i := s.jobs[s.WorkOf(e.w).id];
    }
  }

  lemma MintedGrows(s: Sys, e: Effect, st: string)
    requires Stamps(s, e) && st in s.minted
    ensures st in Effected(s, e).minted && Effected(s, e).minted[st] == s.minted[st]
  {
  }

  lemma MadeIsMinted(s: Sys, e: Effect, j: Job)
    requires Shaped(s) && Legal(s, e) && Stamps(s, e) && Owned(s) && Makes(e, j) && j.oauthState != ""
    ensures j.oauthState in Effected(s, e).minted && Effected(s, e).minted[j.oauthState] == j.jobId
  {
    if !e.Creates? {
      var i := MadeFrom(s, e, j);
      if i.oauthState == j.oauthState { MintedGrows(s, e, j.oauthState); }
    }
  }

  lemma IndexFrom(s: Sys, e: Effect, st: string)
    requires st in Effected(s, e).index
    ensures
      var id := Effected(s, e).index[st];
      || (st in s.index && s.index[st] == id)
      || (exists j :: Makes(e, j) && st == j.oauthState != "" && id == j.jobId)
      || (e.Writes? && s.WorkOf(e.w).Copy() && st == s.WorkOf(e.w).job.oauthState != ""
        && id == s.WorkOf(e.w).job.jobId)
  {
    match e
    case Creates(j, _, _) => assert Makes(e, j);
    case Settles(_, _, _, _, _, _) => SettledIndexFrom(s, e, st);
    case Writes(_, _, _) => WrittenIndexFrom(s, e, st);
    case _ =>
  }

  lemma SettledIndexFrom(s: Sys, e: Effect, st: string)
    requires e.Settles? && st in Effected(s, e).index
    ensures var id := Effected(s, e).index[st];
            (st in s.index && s.index[st] == id)
              || (Makes(e, e.after) && st == e.after.oauthState != "" && id == e.after.jobId)
  {
    SettledIndexForm(s, e);
  }

  lemma SettledIndexForm(s: Sys, e: Effect)
    requires e.Settles?
    ensures
      var index := if e.cleared.Some? then s.index - {e.cleared.value} else s.index;
      Effected(s, e).index ==
        if e.save.Indexed() && e.after.oauthState != "" then index[e.after.oauthState := e.after.jobId] else index
  {
    var s1 := if e.cleared.Some? then s.(index := s.index - {e.cleared.value}) else s;
    MintingKeepsIndex(Logging(s1, e.events), e.before.oauthState, e.after);
  }

  lemma MintingKeepsIndex(s: Sys, was: string, j: Job)
    ensures Minting(s, was, j).index == s.index && Minting(s, was, j).jobs == s.jobs
  {
  }

  lemma WrittenIndexFrom(s: Sys, e: Effect, st: string)
    requires e.Writes? && st in Effected(s, e).index
    ensures
      var (id, work) := (Effected(s, e).index[st], s.WorkOf(e.w));
      (st in s.index && s.index[st] == id) || (work.Copy() && st == work.job.oauthState != "" && id == work.job.jobId)
  {
  }

  lemma OwnedIndex(s: Sys, e: Effect, st: string)
    requires Shaped(s) && Legal(s, e) && Stamps(s, e) && Owned(s) && st in Effected(s, e).index
    ensures st in Effected(s, e).minted && Effected(s, e).index[st] == Effected(s, e).minted[st]
  {
    IndexFrom(s, e, st);
    if st in s.index && s.index[st] == Effected(s, e).index[st] {
      MintedGrows(s, e, st);
    } else if e.Writes? && s.WorkOf(e.w).Copy() && st == s.WorkOf(e.w).job.oauthState {
      HeldIsWellFormed(s, e.w);
      MintedGrows(s, e, st);
    } else {
      var j :| Makes(e, j) && st == j.oauthState && Effected(s, e).index[st] == j.jobId;
      MadeIsMinted(s, e, j);
    }
  }

  lemma OwnedCopy(s: Sys, e: Effect, j: Job)
    requires Shaped(s) && Honest(s, e) && Legal(s, e) && Stamps(s, e) && Owned(s) && Known(Effected(s, e), j)
      && j.oauthState != ""
    ensures j.oauthState in Effected(s, e).minted && Effected(s, e).minted[j.oauthState] == j.jobId
  {
    OnlyKnownCopies(s, e, j);
    if Makes(e, j) { MadeIsMinted(s, e, j); } else { MintedGrows(s, e, j.oauthState); }
  }

  /** Copies of one job agree on its flow. */
  ghost predicate OneFlow(s: Sys) {
    forall i, j :: Known(s, i) && Known(s, j) && i.jobId == j.jobId ==> i.flow == j.flow
  }

  lemma MadeFlow(s: Sys, e: Effect, i: Job, j: Job)
    requires Shaped(s) && Once(s) && Legal(s, e) && Sparing(s, e) && OneFlow(s)
    requires Makes(e, i) && Known(s, j) && i.jobId == j.jobId
    ensures i.flow == j.flow
  {
    if !e.Creates? { var k := MadeFrom(s, e, i); }
  }

  lemma OneFlowEffect(s: Sys, e: Effect)
    requires Shaped(s) && Once(s) && Honest(s, e) && Legal(s, e) && Sparing(s, e) && OneFlow(s)
    ensures OneFlow(Effected(s, e))
  {
    var s' := Effected(s, e);
    forall i, j | Known(s', i) && Known(s', j) && i.jobId == j.jobId ensures i.flow == j.flow {
      OnlyKnownCopies(s, e, i);
      OnlyKnownCopies(s, e, j);
      if Makes(e, i) && !Makes(e, j) { MadeFlow(s, e, i, j); }
      if Makes(e, j) && !Makes(e, i) { MadeFlow(s, e, j, i); }
    }
  }

  lemma OwnedClient(s: Sys, e: Effect, j: Job, st: string)
    requires Shaped(s) && Once(s) && Honest(s, e) && Legal(s, e) && Sparing(s, e) && Stamps(s, e) && Owned(s)
      && OneFlow(s)
    requires Known(Effected(s, e), j) && j.flow.IsClientSide() && st in Effected(s, e).minted
    ensures Effected(s, e).minted[st] != j.jobId
  {
    var s' := Effected(s, e);
    OneFlowEffect(s, e);
    OnlyKnownCopies(s, e, j);
    OwnedMinting(s, e, st);
    if st in s.minted {
      if Makes(e, j) && !e.Creates? { var i := MadeFrom(s, e, j); }
    } else if s'.minted[st] == j.jobId {
      var i :| Makes(e, i) && s'.minted[st] == i.jobId && !i.flow.IsClientSide();
      if Known(s, j) { MadeFlow(s, e, i, j); }
    }
  }

  lemma OwnedEffect(s: Sys, e: Effect)
    requires Shaped(s) && Once(s) && Honest(s, e) && Legal(s, e) && Sparing(s, e) && Stamps(s, e) && Owned(s)
      && OneFlow(s)
    ensures Owned(Effected(s, e)) && OneFlow(Effected(s, e))
  {
    var s' := Effected(s, e);
    OneFlowEffect(s, e);
    OwnedMinting(s, e, "");
    forall j | Known(s', j) && j.oauthState != ""
      ensures j.oauthState in s'.minted && s'.minted[j.oauthState] == j.jobId { OwnedCopy(s, e, j); }
    forall st | st in s'.index ensures st in s'.minted && s'.index[st] == s'.minted[st] { OwnedIndex(s, e, st); }
    forall j, st | Known(s', j) && j.flow.IsClientSide() && st in s'.minted
      ensures s'.minted[st] != j.jobId { OwnedClient(s, e, j, st); }
    forall st | st in s'.minted ensures s'.minted[st] in s'.used { OwnedMinting(s, e, st); }
  }

  lemma {:induction false} AlwaysOwned(run: seq<Move>)
    requires Possible(run)
    ensures Owned(After(run)) && OneFlow(After(run))
  {
    if run != [] {
      var (init, m) := (run[..|run| - 1], run[|run| - 1]);
      PossiblePrefix(run);
      AlwaysOwned(init);
      AlwaysShaped(init);
      AlwaysOnce(init);
      EffectIsHonest(m.cfg, After(init), m.step);
      EffectIsLegal(m.cfg, After(init), m.step);
      EffectIsSparing(m.cfg, After(init), m.step);
      EffectStamps(m.cfg, After(init), m.step);
      OwnedEffect(After(init), EffectOf(m.cfg, After(init), m.step));
    }
  }

  lemma {:induction false} PossiblePrefix(run: seq<Move>)
    requires Possible(run) && run != []
    ensures Possible(run[..|run| - 1]) && Fresh(After(run[..|run| - 1]), run[|run| - 1].step)
  {
    var init := run[..|run| - 1];
    assert forall k :: 0 <= k < |init| ==> init[..k] == run[..k] && init[k] == run[k];
  }

  // ---- One authorization per state ----

  predicate Authorization(c: Event) {
    c.Consent? || c.Pushed?
  }

  /** The calls hold at most one authorization, under the state offered, which is then the job's. */
  ghost predicate Single(events: seq<Event>, j: Job, offered: Option<string>) {
    && (forall c :: c in events && Authorization(c) ==> offered == Some(c.state) && j.oauthState == c.state)
    && (forall c, d :: c in events && d in events && Authorization(c) && Authorization(d) ==> c == d)
  }

  lemma BeginConsentIsSingle(j: Job, digests: Option<DigestAnswer>, state: Option<string>)
    ensures Single(BeginConsent(j, digests, state).events, BeginConsent(j, digests, state).job, state)
  {
  }

  lemma PreparedIsSingle(id: string, input: PrepareInput, ans: Answers)
    ensures Single(Prepared(id, input, ans).events, Prepared(id, input, ans).job, ans.state)
  {
    var c := CreateSessions(NewJob(id, input), ans.sessions).job;
    if !input.flow.IsClientSide() && !input.flow.IsCsc() {
      BeginConsentIsSingle(c, ans.digests, ans.state);
      var j1 :=
        c.(signIdentityId := input.signIdentityId, signingCert := input.signingCert, authCert := input.authCert);
      BeginConsentIsSingle(j1, ans.digests, ans.state);
    }
  }

  lemma ProfileIsSingle(j: Job, ans: Answers)
    ensures Single(AdvanceProfile(j, ans).events, AdvanceProfile(j, ans).job, ans.state)
  {
    if ans.token.Some? && ans.identities.Some? && ans.identities.value.signing.Some? {
      var ids := ans.identities.value;
      var j3 := j.(profileToken := ans.token.value.access, signIdentityId := ids.signing.value,
                   signingCert := if ids.signingCert.None? then "" else ids.signingCert.value,
                   authCert := if ids.authCert.None? then "" else ids.authCert.value);
      BeginConsentIsSingle(j3, ans.digests, ans.state);
    }
  }

  lemma CredentialIsSingle(j: Job, token: Token, ans: Answers)
    ensures Single(AdvanceCredential(j, token, ans).events, AdvanceCredential(j, token, ans).job, ans.state)
  {
  }

  lemma AdvancedIsSingle(j: Job, ans: Answers)
    ensures Single(AdvanceCallback(j, ans).events, AdvanceCallback(j, ans).job, ans.state)
  {
    if j.flow.IsTrustedX() {
      ProfileIsSingle(j, ans);
    } else if ans.token.Some? {
      CredentialIsSingle(j.(pkceVerifier := ""), ans.token.value, ans);
    }
  }

  lemma CalledBackIsSingle(j: Job, declined: bool, ans: Answers)
    ensures Single(CalledBack(j, declined, ans).events, CalledBack(j, declined, ans).job, ans.state)
  {
    AdvancedIsSingle(j, ans);
  }

  lemma SigningIsUnauthorized(j: Job, ans: SignAnswers)
    ensures forall c :: c in Sign(j, ans).events ==> !Authorization(c)
    ensures forall c :: c in PushDevice(j, ans).events ==> !Authorization(c)
  {
    if j.flow.IsCsc() { SignCscCalls(j, ans); }
  }

  lemma FinalizeIsUnauthorized(cfg: Config, j: Job, taken: bool)
    ensures forall c :: c in Finalized(cfg, j, taken).events ==> !Authorization(c)
  {
  }

  /** Authorizations an effect logs: at most one, under a state it mints. */
  ghost predicate Authorizes(s: Sys, e: Effect) {
    && (forall c :: c in Made(s, e) && Authorization(c) ==> c.state !in s.minted && c.state in Effected(s, e).minted)
    && (forall c, d :: c in Made(s, e) && d in Made(s, e) && Authorization(c) && Authorization(d) ==> c == d)
  }

  lemma HandlerAuthorizes(s: Sys, e: Effect, offered: Option<string>)
    requires Owned(s) && (e.Creates? || e.Settles?)
    requires Single(e.events, if e.Creates? then e.job else e.after, offered)
    requires offered.Some? ==> offered.value !in s.minted && offered.value != ""
    requires e.Settles? && e.before.oauthState != "" ==> e.before.oauthState in s.minted
    ensures Authorizes(s, e)
  {
  }

  lemma EffectAuthorizes(cfg: Config, s: Sys, step: Step)
    requires Shaped(s) && Owned(s) && Fresh(s, step)
    ensures Authorizes(s, EffectOf(cfg, s, step))
  {
    var e := EffectOf(cfg, s, step);
    match step
    case Prepare(id, input, ans, _) =>
      PreparedIsSingle(id, input, ans);
      if e.Creates? { HandlerAuthorizes(s, e, ans.state); }
    case Callback(state, declined, ans, _, _, _) =>
      if e.Settles? {
        StoredIsWellFormed(s, s.index[state]);
        CalledBackIsSingle(e.before, declined, ans);
        HandlerAuthorizes(s, e, ans.state);
      }
    case _ => OtherAuthorizes(cfg, s, step);
  }

  lemma OtherAuthorizes(cfg: Config, s: Sys, step: Step)
    requires !step.Prepare? && !step.Callback?
    ensures forall c :: c in Made(s, EffectOf(cfg, s, step)) ==> !Authorization(c)
  {
    match step
    case WorkerSign(w, ans) => if s.WorkOf(w).ToSign? { SigningIsUnauthorized(s.WorkOf(w).job, ans); }
    case WorkerPush(w, ans) => if s.WorkOf(w).ToPush? { SigningIsUnauthorized(s.WorkOf(w).job, ans); }
    case WorkerFinalize(w, taken) => if s.WorkOf(w).ToFinalize? { FinalizeIsUnauthorized(cfg, s.WorkOf(w).job, taken); }
    case _ =>
  }

  ghost predicate OneAuthorization(s: Sys) {
    && (forall c :: c in s.log && Authorization(c) ==> c.state in s.minted)
    && (forall c, d :: c in s.log && d in s.log && Authorization(c) && Authorization(d) && c.state == d.state ==>
      c == d)
  }

  lemma OneAuthorizationEffect(s: Sys, e: Effect)
    requires OneAuthorization(s) && Authorizes(s, e) && Stamps(s, e)
    ensures OneAuthorization(Effected(s, e))
  {
    LogGrows(s, e);
    forall c | c in s.log && Authorization(c) ensures c.state in Effected(s, e).minted { MintedGrows(s, e, c.state); }
  }

  /** The authorization behind a state is the only one ever made under it. */
  lemma {:induction false} AuthorizationIsUnique(run: seq<Move>)
    requires Possible(run)
    ensures OneAuthorization(After(run))
  {
    if run != [] {
      var (init, m) := (run[..|run| - 1], run[|run| - 1]);
      PossiblePrefix(run);
      AuthorizationIsUnique(init);
      AlwaysShaped(init);
      AlwaysOwned(init);
      EffectStamps(m.cfg, After(init), m.step);
      EffectAuthorizes(m.cfg, After(init), m.step);
      OneAuthorizationEffect(After(init), EffectOf(m.cfg, After(init), m.step));
    }
  }

  // ---- When every write succeeds ----

  /**
   What is written is written: every Save, ClearState and Delete succeeds. Queues may lose ids and
   workers may crash.
   */
  predicate Written(step: Step) {
    match step
    case Prepare(_, _, _, save) => save.Saved?
    case Callback(_, _, _, cleared, save, _) => cleared && save.Saved?
    case SubmitSignatures(_, _, save, _) => save.Saved?
    case DeleteJob(_, unindexed, deleted) => unindexed && deleted
    case WorkerPublish(_, save) => save.Saved?
    case WorkerSave(_, save) => save.Saved?
    case _ => true
  }

  ghost predicate Durable(run: seq<Move>) {
    forall k :: 0 <= k < |run| ==> Written(run[k].step)
  }

  /** The index holds the state of every stored job that has one, and nothing else. */
  ghost predicate Mirrors(index: map<string, string>, jobs: map<string, Job>) {
    && (forall st :: st in index ==> st != "" && index[st] in jobs && jobs[index[st]].oauthState == st)
    && (forall id :: id in jobs && jobs[id].oauthState != "" ==>
      jobs[id].oauthState in index && index[jobs[id].oauthState] == id)
  }

  /** A worker's copy carries the stored job's state. */
  ghost predicate WorkersAgree(s: Sys) {
    forall w :: w in s.workers && s.workers[w].Copy() && s.workers[w].job.jobId in s.jobs ==>
      s.jobs[s.workers[w].job.jobId].oauthState == s.workers[w].job.oauthState
  }

  /** A retired state is on no stored job and in no worker's hands. */
  ghost predicate RetiredGone(s: Sys) {
    forall st :: st in s.retired ==>
      && st in s.minted
      && (forall id :: id in s.jobs ==> s.jobs[id].oauthState != st)
      && (forall w :: w in s.workers && s.workers[w].Copy() ==> s.workers[w].job.oauthState != st)
  }

  ghost predicate Exact(s: Sys) {
    Mirrors(s.index, s.jobs) && WorkersAgree(s) && RetiredGone(s)
  }

  /** What effects that are written in full do to the index. */
  ghost predicate Gentle(e: Effect) {
    match e
    case Creates(_, _, save) => save.Saved?
    case Settles(before, after, _, cleared, save, _) =>
      save.Saved? && (cleared == Some(before.oauthState) || (cleared.None? && after.oauthState == before.oauthState))
    case Deletes(_, unindexed, deleted) => unindexed && deleted
    case Writes(_, save, _) => save.Saved?
    case _ => true
  }

  lemma WrittenIsGentle(cfg: Config, s: Sys, step: Step)
    requires Exact(s) && Written(step)
    ensures EffectOf(cfg, s, step).Writes? && step.WorkerPublish? ==> step.save.Saved?
    ensures Gentle(EffectOf(cfg, s, step))
  {
    if step.SubmitSignatures? && step.id in s.jobs && Submit(cfg, s.jobs[step.id], step.sigs).Some? {
      AttachedKeeps(s.jobs[step.id].documents, step.sigs);
    }
  }

  /** `Owned`, spelled out for stored and held copies. */
  ghost predicate Rightful(s: Sys) {
    && (forall id :: id in s.jobs ==>
          && s.jobs[id].jobId == id
          && (s.jobs[id].oauthState != "" ==>
            s.jobs[id].oauthState in s.minted && s.minted[s.jobs[id].oauthState] == id))
    && (forall w :: w in s.workers && s.workers[w].Copy() && s.workers[w].job.oauthState != "" ==>
          s.workers[w].job.oauthState in s.minted && s.minted[s.workers[w].job.oauthState] == s.workers[w].job.jobId)
  }

  lemma OwnedIsRightful(s: Sys)
    requires Shaped(s) && Owned(s)
    ensures Rightful(s)
  {
    forall id | id in s.jobs ensures Known(s, s.jobs[id]) { StoredIsWellFormed(s, id); }
    forall w | w in s.workers && s.workers[w].Copy() ensures Known(s, s.workers[w].job) { HeldIsWellFormed(s, w); }
  }

  /** Saving a job re-points its state, provided no other job has it and the one it replaces is dropped. */
  lemma SavedMirrors(index: map<string, string>, jobs: map<string, Job>, id: string, j: Job, drop: set<string>)
    requires Mirrors(index, jobs)
    requires forall x :: x in jobs && x != id && jobs[x].oauthState != "" ==>
      jobs[x].oauthState != j.oauthState && jobs[x].oauthState !in drop
    requires id in jobs ==>
      jobs[id].oauthState in drop || jobs[id].oauthState == j.oauthState || jobs[id].oauthState == ""
    ensures Mirrors(if j.oauthState != "" then (index - drop)[j.oauthState := id] else index - drop, jobs[id := j])
  {
  }

  lemma CreatedStore(s: Sys, e: Effect)
    requires e.Creates? && e.save.Saved?
    ensures
      var s' := Effected(s, e);
      && s'.jobs == s.jobs[e.job.jobId := e.job] && s'.workers == s.workers && s'.retired == s.retired
      && s'.index == (if e.job.oauthState != "" then (s.index - {})[e.job.oauthState := e.job.jobId] else s.index - {})
      && s'.minted == (if e.job.oauthState == "" then s.minted else s.minted[e.job.oauthState := e.job.jobId])
  {
    assert s.index - {} == s.index;
  }

  lemma NewIsUnknown(s: Sys, x: string)
    requires Shaped(s) && Once(s) && x !in s.used
    ensures x !in s.jobs && forall w :: w in s.workers && s.workers[w].Copy() ==> s.workers[w].job.jobId != x
  {
    if x in s.jobs { StoredIsWellFormed(s, x); }
    forall w | w in s.workers && s.workers[w].Copy()
      ensures s.workers[w].job.jobId != x { HeldIsWellFormed(s, w); }
  }

  lemma CreatesExact(s: Sys, e: Effect)
    requires Shaped(s) && Once(s) && Owned(s) && Exact(s) && e.Creates? && Legal(s, e) && Sparing(s, e) && Stamps(s, e)
      && Gentle(e)
    ensures Exact(Effected(s, e))
  {
    OwnedIsRightful(s);
    CreatedStore(s, e);
    NewIsUnknown(s, e.job.jobId);
    SavedMirrors(s.index, s.jobs, e.job.jobId, e.job, {});
    CreatedAgrees(s, Effected(s, e), e.job);
  }

  lemma CreatedAgrees(s: Sys, s': Sys, j: Job)
    requires WorkersAgree(s) && RetiredGone(s)
    requires s'.jobs == s.jobs[j.jobId := j] && s'.workers == s.workers && s'.retired == s.retired
    requires j.oauthState !in s.retired && forall st :: st in s.minted ==> st in s'.minted
    requires forall w :: w in s.workers && s.workers[w].Copy() ==> s.workers[w].job.jobId != j.jobId
    ensures WorkersAgree(s') && RetiredGone(s')
  {
  }

  lemma HolderIsPast(s: Sys, w: nat)
    requires Shaped(s) && Once(s) && s.WorkOf(w).Copy()
    ensures var id := s.WorkOf(w).job.jobId; id in s.jobs ==> Past(s.jobs[id])
  {
    assert s.workers[w].On(s.workers[w].job.jobId) && OnceFor(s, s.workers[w].job.jobId);
  }

  lemma SettledIndex(s: Sys, e: Effect)
    requires e.Settles? && e.save.Saved?
    ensures
      var drop := if e.cleared.Some? then {e.cleared.value} else {};
      Effected(s, e).index
      == if e.after.oauthState != "" then (s.index - drop)[e.after.oauthState := e.after.jobId] else s.index - drop
  {
    assert s.index - {} == s.index;
  }

  lemma SettledMinting(s: Sys, e: Effect)
    requires e.Settles? && e.save.Saved?
    ensures
      var s' := Effected(s, e);
      && s'.jobs == s.jobs[e.after.jobId := e.after] && s'.workers == s.workers
      && (if e.after.oauthState == e.before.oauthState then s'.minted == s.minted && s'.retired == s.retired
          else
            && s'.minted == s.minted[e.after.oauthState := e.after.jobId]
            && s'.retired <= s.retired + {e.before.oauthState}
            && (e.before.oauthState == "" ==> s'.retired == s.retired))
  {
    SettledStore(s, e);
    SettledRetired(s, e);
  }

  lemma SettledRetired(s: Sys, e: Effect)
    requires e.Settles?
    ensures Effected(s, e).minted == Minting(s, e.before.oauthState, e.after).minted
    ensures Effected(s, e).retired == Minting(s, e.before.oauthState, e.after).retired
  {
  }

  lemma SettlesCopies(s: Sys, s': Sys, was: Job, j: Job)
    requires Rightful(s) && WorkersAgree(s) && RetiredGone(s)
    requires j.jobId == was.jobId && was.jobId in s.jobs && s.jobs[was.jobId] == was
    requires s'.jobs == s.jobs[j.jobId := j] && s'.workers == s.workers
    requires if j.oauthState == was.oauthState then s'.minted == s.minted && s'.retired == s.retired
             else s'.minted == s.minted[j.oauthState := j.jobId] && s'.retired <= s.retired + {was.oauthState}
                  && (was.oauthState == "" ==> s'.retired == s.retired)
    requires j.oauthState != was.oauthState ==> j.oauthState !in s.minted && j.oauthState != ""
    requires forall w :: w in s.workers && s.workers[w].Copy() && s.workers[w].job.jobId == was.jobId ==>
      j.oauthState == was.oauthState
    ensures WorkersAgree(s') && RetiredGone(s')
  {
  }

  lemma SettlesExact(s: Sys, e: Effect)
    requires Shaped(s) && Once(s) && Owned(s) && Exact(s) && e.Settles? && Legal(s, e) && Stamps(s, e) && Gentle(e)
    ensures Exact(Effected(s, e))
  {
    OwnedIsRightful(s);
    forall w | w in s.workers && s.workers[w].Copy() && s.workers[w].job.jobId == e.before.jobId
      ensures e.after.oauthState == e.before.oauthState { HolderIsPast(s, w); }
    SettledIndex(s, e);
    SettledMinting(s, e);
    SavedMirrors(s.index, s.jobs, e.after.jobId, e.after, if e.cleared.Some? then {e.cleared.value} else {});
    SettlesCopies(s, Effected(s, e), e.before, e.after);
  }

  lemma WrittenStore(s: Sys, e: Effect)
    requires e.Writes? && e.save.Saved? && s.WorkOf(e.w).Copy()
    ensures
      var s', j := Effected(s, e), s.WorkOf(e.w).job;
      && s'.jobs == s.jobs[j.jobId := j] && s'.workers == s.workers[e.w := e.work]
      && s'.index == (if j.oauthState != "" then (s.index - {})[j.oauthState := j.jobId] else s.index - {})
      && s'.minted == s.minted && s'.retired == s.retired
  {
    assert s.index - {} == s.index;
  }

  lemma WritesCopies(s: Sys, s': Sys, w: nat, work: Work)
    requires s.WorkOf(w).Copy() && WorkersAgree(s) && RetiredGone(s)
    requires work.Copy() ==>
      work.job.jobId == s.WorkOf(w).job.jobId && work.job.oauthState == s.WorkOf(w).job.oauthState
    requires s'.jobs == s.jobs[s.WorkOf(w).job.jobId := s.WorkOf(w).job] && s'.workers == s.workers[w := work]
    requires s'.minted == s.minted && s'.retired == s.retired
    requires forall v :: v in s.workers && s.workers[v].Copy() && v != w ==>
      s.workers[v].job.jobId != s.WorkOf(w).job.jobId
    ensures WorkersAgree(s') && RetiredGone(s')
  {
    assert s.workers[w].Copy();
  }

  lemma WritesExact(s: Sys, e: Effect)
    requires Shaped(s) && Once(s) && Owned(s) && Exact(s) && e.Writes? && Legal(s, e) && Gentle(e)
    ensures Exact(Effected(s, e))
  {
    OwnedIsRightful(s);
    var j := s.WorkOf(e.w).job;
    assert OnceFor(s, j.jobId) && s.workers[e.w].On(j.jobId);
    assert forall v :: v in s.workers && s.workers[v].On(j.jobId) ==> v == e.w;
    WrittenStore(s, e);
    SavedMirrors(s.index, s.jobs, j.jobId, j, {});
    WritesCopies(s, Effected(s, e), e.w, e.work);
  }

  lemma DeletesExact(s: Sys, e: Effect)
    requires Rightful(s) && Exact(s) && e.Deletes? && Gentle(e)
    ensures Exact(Effected(s, e))
  {
  }

  lemma WorksExact(s: Sys, e: Effect)
    requires Shaped(s) && Exact(s) && e.Works? && Legal(s, e)
    ensures Exact(Effected(s, e))
  {
    if s.WorkOf(e.w).Got? && e.work.Copy() { StoredIsWellFormed(s, s.WorkOf(e.w).id); }
  }

  lemma OtherExact(s: Sys, e: Effect)
    requires Shaped(s) && Owned(s) && Exact(s) && !e.Creates? && !e.Settles? && !e.Writes? && Legal(s, e) && Gentle(e)
    ensures Exact(Effected(s, e))
  {
    OwnedIsRightful(s);
    if e.Deletes? { DeletesExact(s, e); }
    if e.Works? { WorksExact(s, e); }
  }

  lemma {:induction false} AlwaysExact(run: seq<Move>)
    requires Possible(run) && Durable(run)
    ensures Exact(After(run))
  {
    if run != [] {
      var (init, m) := (run[..|run| - 1], run[|run| - 1]);
      var s := After(init);
      var e := EffectOf(m.cfg, s, m.step);
      PossiblePrefix(run);
      assert forall k :: 0 <= k < |init| ==> init[k] == run[k];
      AlwaysExact(init);
      AlwaysShaped(init);
      AlwaysOnce(init);
      AlwaysOwned(init);
      EffectIsLegal(m.cfg, s, m.step);
      EffectIsSparing(m.cfg, s, m.step);
      EffectStamps(m.cfg, s, m.step);
      WrittenIsGentle(m.cfg, s, m.step);
      ExactEffect(s, e);
    }
  }

  lemma ExactEffect(s: Sys, e: Effect)
    requires Shaped(s) && Once(s) && Owned(s) && Exact(s) && Legal(s, e) && Sparing(s, e) && Stamps(s, e) && Gentle(e)
    ensures Exact(Effected(s, e))
  {
    match e
    case Creates(_, _, _) => CreatesExact(s, e);
    case Settles(_, _, _, _, _, _) => SettlesExact(s, e);
    case Writes(_, _, _) => WritesExact(s, e);
    case _ => OtherExact(s, e);
  }

  /** The index maps a state to a job exactly when the stored job carries that state. */
  lemma {:induction false} IndexIsExact(run: seq<Move>, st: string, id: string)
    requires Possible(run) && Durable(run)
    ensures
      var s := After(run);
      (st in s.index && s.index[st] == id) <==> (id in s.jobs && s.jobs[id].oauthState == st && st != "")
  {
    AlwaysExact(run);
    AlwaysOwned(run);
  }

  /** Once a job has moved on from a state, a callback with it finds nothing and changes nothing. */
  lemma {:induction false} RetiredNeverResolves(run: seq<Move>, cfg: Config, step: Step)
    requires Possible(run) && Durable(run) && step.Callback? && step.state in After(run).retired
    ensures step.state !in After(run).index && Next(cfg, After(run), step) == After(run)
  {
    AlwaysExact(run);
  }
}
