/**
 SubmitSignatures (signing/orchestrator.go): which submissions a client-side job accepts, and
 which value each of its documents then carries.
 */
module Submission {
  import opened Wrappers
  import opened Jobs
  import opened AuthCert
  import opened Upstream
  import opened Flows
  import opened Machine
  import opened Copies
  import opened Shape
  import AtMostOnce
  import opened Lifecycle
  import StateIndex
  import Ecdsa
  import DigestBinding

  /** The last value submitted under an id. */
  function LastValue(sigs: seq<Submitted>, id: string): Option<string> {
    if sigs == [] then None
    else if sigs[|sigs| - 1].documentId == id then Some(sigs[|sigs| - 1].signatureValue)
    else LastValue(sigs[..|sigs| - 1], id)
  }

  /** No earlier document has the same id. */
  ghost predicate First(ds: seq<Document>, k: nat)
    requires k < |ds|
  {
    forall i :: 0 <= i < k ==> ds[i].documentId != ds[k].documentId
  }

  ghost predicate Distinct(ds: seq<Document>) {
    forall i, k :: 0 <= i < k < |ds| ==> ds[i].documentId != ds[k].documentId
  }

  lemma {:induction false} LastValueIff(sigs: seq<Submitted>, id: string)
    ensures LastValue(sigs, id).Some? <==> id in SubmittedIds(sigs)
  {
    if sigs != [] {
      var init := sigs[..|sigs| - 1];
      LastValueIff(init, id);
      assert forall s :: s in sigs <==> s in init || s == sigs[|sigs| - 1];
    }
  }

  /** Value i is for the document id, and no later one is. */
  ghost predicate LastAt(sigs: seq<Submitted>, id: string, i: int) {
    && 0 <= i < |sigs| && sigs[i].documentId == id
    && forall k :: i < k < |sigs| ==> sigs[k].documentId != id
  }

  lemma {:induction false} LastValueIs(sigs: seq<Submitted>, id: string, i: int)
    requires LastAt(sigs, id, i)
    ensures LastValue(sigs, id) == Some(sigs[i].signatureValue)
  {
    var last := |sigs| - 1;
    if i < last {
      assert forall k :: 0 <= k < last ==> sigs[..last][k] == sigs[k];
      LastValueIs(sigs[..last], id, i);
    }
  }

  /** A value is attached to the first document with its id, and to no other. */
  function Valued(ds: seq<Document>, k: nat, sigs: seq<Submitted>): Document
    requires k < |ds|
  {
    match LastValue(sigs, ds[k].documentId)
    case None => ds[k]
    case Some(v) => ds[k].(signatureValue := v)
  }

  /** What the attached documents are: the last value on the first document of each id, the rest untouched. */
  lemma {:induction false} AttachedAt(ds: seq<Document>, sigs: seq<Submitted>, k: nat)
    requires Attached(ds, sigs).Some? && k < |ds|
    ensures |Attached(ds, sigs).value| == |ds|
    ensures Attached(ds, sigs).value[k] == if First(ds, k) then Valued(ds, k, sigs) else ds[k]
  {
    AttachedKeeps(ds, sigs);
    if sigs != [] {
      var (init, last) := (sigs[..|sigs| - 1], sigs[|sigs| - 1]);
      var ds' := Attached(ds, init).value;
      AttachedKeeps(ds, init);
      AttachedAt(ds, init, k);
      DocIndexFirst(ds', last.documentId);
      assert forall i :: 0 <= i < |ds| ==> ds'[i].documentId == ds[i].documentId;
    }
  }

  lemma {:induction false} AttachedIff(ds: seq<Document>, sigs: seq<Submitted>)
    ensures Attached(ds, sigs).Some? <==> SubmittedIds(sigs) <= Ids(ds)
  {
    if sigs != [] {
      var (init, last) := (sigs[..|sigs| - 1], sigs[|sigs| - 1]);
      AttachedIff(ds, init);
      assert forall s :: s in sigs <==> s in init || s == last;
      assert SubmittedIds(sigs) == SubmittedIds(init) + {last.documentId};
      if Attached(ds, init).Some? {
        var ds' := Attached(ds, init).value;
        AttachedKeeps(ds, init);
        DocIndexFirst(ds', last.documentId);
        assert Ids(ds') == Ids(ds) by {
          assert forall i :: 0 <= i < |ds| ==> ds'[i].documentId == ds[i].documentId;
          assert forall d :: d in ds ==> d.documentId in Ids(ds');
          assert forall d :: d in ds' ==> d.documentId in Ids(ds);
        }
      }
    }
  }

  /**
   Accepted exactly for an offered client-side job awaiting signatures, when the submitted ids are
   the job's ids as sets.
   */
  lemma AcceptedIff(cfg: Config, j: Job, sigs: seq<Submitted>)
    ensures Submit(cfg, j, sigs).Some? <==>
      && (j.flow == WebEid || (j.flow == LegacyEid && cfg.legacyEidEnabled)) && j.state.AwaitingClientSignature?
      && SubmittedIds(sigs) == Ids(j.documents)
  {
    AttachedIff(j.documents, sigs);
    var (ids, submitted) := (Ids(j.documents), SubmittedIds(sigs));
    assert ids - submitted == {} <==> ids <= submitted by {
      assert forall id :: id in ids && id !in submitted ==> id in ids - submitted;
    }
  }

  /** With distinct ids, every document of an accepted submission carries the last value submitted for it. */
  lemma {:induction false} SubmittedValues(cfg: Config, j: Job, sigs: seq<Submitted>, k: nat)
    requires Distinct(j.documents) && Submit(cfg, j, sigs).Some? && k < |j.documents|
    ensures
      var j' := Submit(cfg, j, sigs).value;
      && |j'.documents| == |j.documents| && j' == j.(state := Finalizing, documents := j'.documents)
      && LastValue(sigs, j.documents[k].documentId).Some?
      && j'.documents[k] == j.documents[k].(signatureValue := LastValue(sigs, j.documents[k].documentId).value)
      && forall i :: LastAt(sigs, j.documents[k].documentId, i) ==>
           j'.documents[k].signatureValue == sigs[i].signatureValue
  {
    AcceptedIff(cfg, j, sigs);
    AttachedAt(j.documents, sigs, k);
    assert j.documents[k] in j.documents;
    LastValueIff(sigs, j.documents[k].documentId);
    forall i | LastAt(sigs, j.documents[k].documentId, i)
      ensures LastValue(sigs, j.documents[k].documentId) == Some(sigs[i].signatureValue)
    {
      LastValueIs(sigs, j.documents[k].documentId, i);
    }
  }

  /**
   A refused submission changes nothing, whatever Redis would have done. An accepted one whose Save
   is written stores that job alone, and it is queued last when the Save was acknowledged and the
   push succeeded.
   */
  lemma SubmissionStep(cfg: Config, s: Sys, id: string, sigs: seq<Submitted>, save: Save, pushed: bool)
    requires Shaped(s)
    ensures
      var s' := Next(cfg, s, SubmitSignatures(id, sigs, save, pushed));
      var accepted := id in s.jobs
                      && (s.jobs[id].flow == WebEid || (s.jobs[id].flow == LegacyEid && cfg.legacyEidEnabled))
                      && s.jobs[id].state.AwaitingClientSignature? && SubmittedIds(sigs) == Ids(s.jobs[id].documents);
      if !accepted then s' == s
      else
        && id in s'.jobs
        && (if save.Written() then s'.jobs == s.jobs[id := s'.jobs[id]] && s'.jobs[id].state.Finalizing?
            else s'.jobs == s.jobs)
        && s'.queue == (if save.Saved? && pushed then s.queue + [id] else s.queue)
  {
    if id in s.jobs {
      AcceptedIff(cfg, s.jobs[id], sigs);
      if Submit(cfg, s.jobs[id], sigs).Some? {
        StoredIsWellFormed(s, id);
        SubmittedIsWellFormed(cfg, s.jobs[id], sigs);
        AtMostOnce.SettledStore(s, EffectOf(cfg, s, SubmitSignatures(id, sigs, save, pushed)));
      }
    }
  }

  // ---- A batch that repeats an id ----

  lemma EmptyIsNoSignature()
    ensures Ecdsa.NormalizeText("").None?
  {
  }

  /**
   What a client-side copy carries: no value while it awaits them, none on a document that repeats
   an earlier id once it has them, and no such document once it is READY.
   */
  ghost predicate Unrepeated(j: Job) {
    j.flow.IsClientSide() ==>
      && (j.state.AwaitingClientSignature? ==>
        forall k :: 0 <= k < |j.documents| ==> j.documents[k].signatureValue == "")
      && (j.state.Finalizing? ==>
        forall k :: 0 <= k < |j.documents| && !First(j.documents, k) ==> j.documents[k].signatureValue == "")
      && (j.state.Ready? ==> Distinct(j.documents))
  }

  lemma PreparedIsUnrepeated(id: string, input: PrepareInput, ans: Answers)
    requires input.flow.Registered() && ValidBatch(input)
    ensures Unrepeated(Prepared(id, input, ans).job)
  {
    if input.flow.IsClientSide() {
      CreatedIsDrafted(id, input, ans.sessions);
      var c := CreateSessions(NewJob(id, input), ans.sessions).job;
      assert forall k :: 0 <= k < |c.documents| ==> c.documents[k].signatureValue == "";
      BegunIsUnrepeated(c, input, ans);
    } else {
      PreparedIsWellFormed(id, input, ans);
      PreparedFlow(id, input, ans);
    }
  }

  lemma PreparedFlow(id: string, input: PrepareInput, ans: Answers)
    requires !input.flow.IsClientSide()
    ensures Prepared(id, input, ans).job.flow == input.flow
  {
    var c := CreateSessions(NewJob(id, input), ans.sessions).job;
    if !input.flow.IsCsc() {
      BeginConsentIsAlike(c, ans.digests, ans.state);
      var j1 :=
        c.(signIdentityId := input.signIdentityId, signingCert := input.signingCert, authCert := input.authCert);
      BeginConsentIsAlike(j1, ans.digests, ans.state);
    }
  }

  lemma BegunIsUnrepeated(j: Job, input: PrepareInput, ans: Answers)
    requires input.flow.IsClientSide() && j.state.Preparing?
    requires forall k :: 0 <= k < |j.documents| ==> j.documents[k].signatureValue == ""
    ensures Unrepeated(Begin(j, input, ans).job)
  {
    var j1 := j.(signingCert := input.signingCert, authCert := input.authCert);
    CalculatedIsAlike(j1, input.signingCert, ans.digests);
    var c := CalculateDigests(j1, input.signingCert, ans.digests).job;
    assert forall k :: 0 <= k < |c.documents| ==> c.documents[k].signatureValue == "";
  }

  lemma CalledBackIsUnrepeated(j: Job, declined: bool, ans: Answers)
    requires WellFormed(j)
    ensures Unrepeated(CalledBack(j, declined, ans).job)
  {
    CalledBackIsWellFormed(j, declined, ans);
  }

  lemma SubmittedIsUnrepeated(cfg: Config, j: Job, sigs: seq<Submitted>)
    requires Unrepeated(j) && Submit(cfg, j, sigs).Some?
    ensures Unrepeated(Submit(cfg, j, sigs).value)
  {
    var j' := Submit(cfg, j, sigs).value;
    AttachedKeeps(j.documents, sigs);
    forall k | 0 <= k < |j'.documents| && !First(j'.documents, k) ensures j'.documents[k].signatureValue == "" {
      assert !First(j.documents, k);
      AttachedAt(j.documents, sigs, k);
    }
  }

  /** Values that all normalize are all there, so no document repeats an id. */
  lemma EntriesAreDistinct(j: Job)
    requires Unrepeated(j) && j.flow.IsClientSide() && j.state.Finalizing? && Entries(j.documents).Some?
    ensures Distinct(j.documents)
  {
    EmptyIsNoSignature();
    forall i, k | 0 <= i < k < |j.documents| ensures j.documents[i].documentId != j.documents[k].documentId {
      EntriesAt(j.documents, k);
      assert First(j.documents, k);
    }
  }

  lemma FinalizedIsUnrepeated(cfg: Config, j: Job, taken: bool)
    requires WellFormed(j) && Unrepeated(j) && j.state.Finalizing?
    ensures Unrepeated(AfterFinalize(Finalized(cfg, j, taken)).job)
  {
    var o := Finalized(cfg, j, taken);
    if j.flow.IsClientSide() && o.ok { EntriesAreDistinct(j); }
  }

  ghost predicate AllUnrepeated(s: Sys) {
    forall j :: Known(s, j) ==> Unrepeated(j)
  }

  lemma HandlerIsUnrepeated(cfg: Config, s: Sys, step: Step, j: Job)
    requires Shaped(s) && AllUnrepeated(s) && (step.Prepare? || step.Callback? || step.SubmitSignatures?)
    requires Makes(EffectOf(cfg, s, step), j)
    ensures Unrepeated(j)
  {
    match step
    case Prepare(id, input, ans, _) => PreparedIsUnrepeated(id, input, ans);
    case Callback(state, declined, ans, _, _, _) =>
      StoredIsWellFormed(s, s.index[state]);
      CalledBackIsUnrepeated(s.jobs[s.index[state]], declined, ans);
    case SubmitSignatures(id, sigs, _, _) =>
      StoredIsWellFormed(s, id);
      SubmittedIsUnrepeated(cfg, s.jobs[id], sigs);
    case _ =>
  }

  lemma WorkerIsUnrepeated(cfg: Config, s: Sys, step: Step, j: Job)
    requires Shaped(s) && AllUnrepeated(s) && !step.Prepare? && !step.Callback? && !step.SubmitSignatures?
    requires Makes(EffectOf(cfg, s, step), j)
    ensures Unrepeated(j)
  {
    EffectIsLegal(cfg, s, step);
    var w := step.w;
    if s.WorkOf(w).Copy() { HeldIsWellFormed(s, w); } else { StoredIsWellFormed(s, s.WorkOf(w).id); }
    if step.WorkerFinalize? { FinalizedIsUnrepeated(cfg, s.WorkOf(w).job, step.taken); }
  }

  lemma {:induction false} AlwaysUnrepeated(run: seq<Move>)
    ensures AllUnrepeated(After(run))
  {
    if run != [] {
      var (s, m) := (After(run[..|run| - 1]), run[|run| - 1]);
      var e := EffectOf(m.cfg, s, m.step);
      AlwaysUnrepeated(run[..|run| - 1]);
      AlwaysShaped(run[..|run| - 1]);
      EffectIsHonest(m.cfg, s, m.step);
      forall j | Known(After(run), j) ensures Unrepeated(j) {
        OnlyKnownCopies(s, e, j);
        if Makes(e, j) {
          if m.step.Prepare? || m.step.Callback? || m.step.SubmitSignatures? {
            HandlerIsUnrepeated(m.cfg, s, m.step, j);
          } else {
            WorkerIsUnrepeated(m.cfg, s, m.step, j);
          }
        }
      }
    }
  }

  /** In every run, a finalize request for a client-side job is for documents with distinct ids. */
  lemma {:induction false} RepeatedIdIsNeverFinalized(run: seq<Move>, e: Event)
    requires e in After(run).log && e.Finalize? && e.job.flow.IsClientSide()
    ensures Distinct(e.job.documents)
  {
    AlwaysUnrepeated(run);
    DigestBinding.EvidenceIsSound(run, e);
    assert Recorded(After(run), e.job) && Known(After(run), e.job);
    EntriesAreDistinct(e.job);
  }

  /** In every run, a client-side job stored READY has documents with distinct ids. */
  lemma {:induction false} RepeatedIdIsNeverReady(run: seq<Move>, id: string)
    requires id in After(run).jobs && After(run).jobs[id].flow.IsClientSide() && After(run).jobs[id].state.Ready?
    ensures Distinct(After(run).jobs[id].documents)
  {
    AlwaysUnrepeated(run);
    AlwaysShaped(run);
    StoredIsWellFormed(After(run), id);
  }

  /** Every document's last submitted value is a signature. */
  ghost predicate AllNormalize(ds: seq<Document>, sigs: seq<Submitted>) {
    forall k :: 0 <= k < |ds| ==>
      var v := LastValue(sigs, ds[k].documentId);
      v.Some? && Ecdsa.NormalizeText(v.value).Some?
  }

  /**
   An accepted submission for documents that carry no value yet can be finalized if and only if
   their ids are distinct and the last value submitted for each is a signature.
   */
  lemma {:induction false} FinalizableIff(cfg: Config, j: Job, sigs: seq<Submitted>)
    requires Submit(cfg, j, sigs).Some? && forall k :: 0 <= k < |j.documents| ==> j.documents[k].signatureValue == ""
    ensures Entries(Submit(cfg, j, sigs).value.documents).Some? <==>
      Distinct(j.documents) && AllNormalize(j.documents, sigs)
  {
    var ds := Submit(cfg, j, sigs).value.documents;
    AttachedKeeps(j.documents, sigs);
    EntriesIff(ds);
    EmptyIsNoSignature();
    AcceptedIff(cfg, j, sigs);
    forall k | 0 <= k < |ds| ensures
      && LastValue(sigs, j.documents[k].documentId).Some?
      && (Ecdsa.NormalizeText(ds[k].signatureValue).Some? <==>
            First(j.documents, k) && Ecdsa.NormalizeText(LastValue(sigs, j.documents[k].documentId).value).Some?)
    {
      AttachedAt(j.documents, sigs, k);
      assert j.documents[k] in j.documents;
      LastValueIff(sigs, j.documents[k].documentId);
    }
    assert Distinct(j.documents) <==> forall k :: 0 <= k < |j.documents| ==> First(j.documents, k);
  }

  // ---- A job's document ids ----

  /** The same flow, and documents with the same ids. */
  ghost predicate SameIds(a: Job, b: Job) {
    && a.flow == b.flow && |a.documents| == |b.documents|
    && forall i :: 0 <= i < |a.documents| ==> a.documents[i].documentId == b.documents[i].documentId
  }

  lemma CalledBackKeepsIds(j: Job, declined: bool, ans: Answers)
    ensures SameIds(j, CalledBack(j, declined, ans).job)
  {
    CallbackAdvances(j, ans);
  }

  lemma {:induction false} SubmittedKeepsIds(cfg: Config, j: Job, sigs: seq<Submitted>)
    requires Submit(cfg, j, sigs).Some?
    ensures SameIds(j, Submit(cfg, j, sigs).value)
  {
    AttachedKeeps(j.documents, sigs);
  }

  lemma SigningKeepsIds(j: Job, ans: SignAnswers)
    requires NoneReady(j.documents)
    ensures Signed(j, Sign(j, ans)).Copy() && SameIds(j, Signed(j, Sign(j, ans)).job)
      && SameIds(j, AfterSign(PushDevice(j, ans)).job)
  {
    SigningIsAlike(j, ans);
  }

  lemma FinalizeKeepsIds(cfg: Config, j: Job, taken: bool)
    ensures SameIds(j, AfterFinalize(Finalized(cfg, j, taken)).job)
  {
  }

  /** The copy a step makes has the document ids of the copy it is made from. */
  lemma MadeKeepsIds(cfg: Config, s: Sys, step: Step, j: Job) returns (i: Job)
    requires Shaped(s) && Makes(EffectOf(cfg, s, step), j) && !step.Prepare?
    ensures Known(s, i) && i.jobId == j.jobId && SameIds(i, j)
  {
    EffectIsLegal(cfg, s, step);
    i := StateIndex.MadeFrom(s, EffectOf(cfg, s, step), j);
    match step
    case Callback(_, declined, ans, _, _, _) => CalledBackKeepsIds(i, declined, ans);
    case SubmitSignatures(_, sigs, _, _) => SubmittedKeepsIds(cfg, i, sigs);
    case _ => i := WorkerKeepsIds(cfg, s, step, j);
  }

  lemma WorkerKeepsIds(cfg: Config, s: Sys, step: Step, j: Job) returns (i: Job)
    requires Shaped(s) && Makes(EffectOf(cfg, s, step), j) && !step.Prepare? && !step.Callback?
      && !step.SubmitSignatures?
    ensures Known(s, i) && i.jobId == j.jobId && SameIds(i, j)
  {
    var w := step.w;
    EffectIsLegal(cfg, s, step);
    if s.WorkOf(w).Got? {
      StoredIsWellFormed(s, s.WorkOf(w).id);
      i := s.jobs[s.WorkOf(w).id];
    } else {
      HeldIsWellFormed(s, w);
      i := s.WorkOf(w).job;
      if step.WorkerSign? || step.WorkerPush? { SigningKeepsIds(i, step.answers); }
      if step.WorkerFinalize? { FinalizeKeepsIds(cfg, i, step.taken); }
    }
  }

  /** Every copy of the job, wherever it is, has the document ids of the given one. */
  ghost predicate KeepsIds(s: Sys, j: Job) {
    j.jobId in s.used && forall i :: Known(s, i) && i.jobId == j.jobId ==> SameIds(j, i)
  }

  lemma KeepsIdsStep(cfg: Config, s: Sys, step: Step, j: Job)
    requires Shaped(s) && Fresh(s, step) && KeepsIds(s, j)
    ensures KeepsIds(Next(cfg, s, step), j)
  {
    var e := EffectOf(cfg, s, step);
    EffectIsHonest(cfg, s, step);
    AtMostOnce.UsedStays(s, e);
    forall i | Known(Effected(s, e), i) && i.jobId == j.jobId ensures SameIds(j, i) {
      OnlyKnownCopies(s, e, i);
      if Makes(e, i) {
        if step.Prepare? {
          PreparedIsWellFormed(step.id, step.input, step.ans);
        } else {
          var k := MadeKeepsIds(cfg, s, step, i);
        }
      }
    }
  }

  /** A job just created has the one copy. */
  lemma NewBatch(cfg: Config, s: Sys, step: Step, j: Job)
    requires Shaped(s) && AtMostOnce.Once(s) && Fresh(s, step) && step.Prepare? && Makes(EffectOf(cfg, s, step), j)
    ensures KeepsIds(Next(cfg, s, step), j)
  {
    var e := EffectOf(cfg, s, step);
    EffectIsHonest(cfg, s, step);
    AtMostOnce.UsedStays(s, e);
    PreparedIsWellFormed(step.id, step.input, step.ans);
    forall i | Known(Effected(s, e), i) && i.jobId == j.jobId ensures SameIds(j, i) { OnlyKnownCopies(s, e, i); }
  }

  lemma {:induction false} OneBatch(run: seq<Move>, j: Job)
    requires Possible(run) && Known(After(run), j)
    ensures KeepsIds(After(run), j)
  {
    var (init, m) := (run[..|run| - 1], run[|run| - 1]);
    var (s, e) := (After(init), EffectOf(m.cfg, After(init), m.step));
    StateIndex.PossiblePrefix(run);
    AlwaysShaped(init);
    AtMostOnce.AlwaysOnce(init);
    AtMostOnce.AlwaysOnce(run);
    EffectIsHonest(m.cfg, s, m.step);
    OnlyKnownCopies(s, e, j);
    if Known(s, j) {
      OneBatch(init, j);
      KeepsIdsStep(m.cfg, s, m.step, j);
    } else if m.step.Prepare? {
      NewBatch(m.cfg, s, m.step, j);
    } else {
      var i := MadeKeepsIds(m.cfg, s, m.step, j);
      OneBatch(init, i);
      KeepsIdsStep(m.cfg, s, m.step, i);
    }
  }

  /**
   No step changes a job's document ids: whatever copy of a job there is at any later time has those
   it was stored with.
   */
  lemma {:induction false} IdsNeverChange(run: seq<Move>, k: nat, id: string)
    requires Possible(run) && k <= |run| && id in After(run[..k]).jobs
    ensures KeepsIds(After(run), After(run[..k]).jobs[id]) && After(run[..k]).jobs[id].jobId == id
  {
    AlwaysShaped(run[..k]);
    StoredIsWellFormed(After(run[..k]), id);
    if k == |run| {
      assert run[..k] == run;
      OneBatch(run, After(run).jobs[id]);
    } else {
      var (init, m) := (run[..|run| - 1], run[|run| - 1]);
      StateIndex.PossiblePrefix(run);
      assert init[..k] == run[..k];
      IdsNeverChange(init, k, id);
      AlwaysShaped(init);
      KeepsIdsStep(m.cfg, After(init), m.step, After(run[..k]).jobs[id]);
    }
  }

  /** For a client-side job that was ever stored with a repeated id, no finalize request is ever sent. */
  lemma {:induction false} RepeatedIdSendsNothing(run: seq<Move>, k: nat, id: string)
    requires Possible(run) && k <= |run| && id in After(run[..k]).jobs
    requires After(run[..k]).jobs[id].flow.IsClientSide() && !Distinct(After(run[..k]).jobs[id].documents)
    ensures Calls(After(run).log, FinalizeKind, id) == 0
  {
    IdsNeverChange(run, k, id);
    forall e | e in After(run).log && e.Finalize? && e.job.flow.IsClientSide() ensures Distinct(e.job.documents) {
      RepeatedIdIsNeverFinalized(run, e);
    }
    RepeatedIsUnsent(After(run), After(run[..k]).jobs[id]);
  }

  lemma SameIdsAsSent(s: Sys, j: Job, e: Event)
    requires KeepsIds(s, j) && e in s.log && e.Finalize? && Subject(e) == j.jobId
    ensures e.job.flow == j.flow && (Distinct(e.job.documents) <==> Distinct(j.documents))
  {
    assert Recorded(s, e.job) && Known(s, e.job);
    assert SameIds(j, e.job);
  }

  lemma {:induction false} RepeatedIsUnsent(s: Sys, j: Job)
    requires KeepsIds(s, j) && j.flow.IsClientSide() && !Distinct(j.documents)
    requires forall e :: e in s.log && e.Finalize? && e.job.flow.IsClientSide() ==> Distinct(e.job.documents)
    ensures Calls(s.log, FinalizeKind, j.jobId) == 0
  {
    forall e | e in s.log ensures KindOf(e) != FinalizeKind || Subject(e) != j.jobId {
      if e.Finalize? && Subject(e) == j.jobId { SameIdsAsSent(s, j, e); }
    }
    AtMostOnce.AbsentIsUncalled(s.log, FinalizeKind, j.jobId);
  }

  const BATCH :=
    PrepareInput(WebEid, "cert", "auth", "",
                 [InputDocument("d", Xades, Create, ""), InputDocument("d", Xades, Create, "")])
  const DIGESTS := DigestAnswer([SessionDigest("s", "x"), SessionDigest("t", "y")], "", "", "")
  const UPLOADED := Answers([Uploaded("s"), Uploaded("t")], None, None, None, Some(DIGESTS), None, None, false, None)

  lemma TwoUploaded()
    ensures
      var c := CreateSessions(NewJob("j", BATCH), UPLOADED.sessions);
      && c.ok && |c.job.documents| == 2 && c.job.documents[0].sessionId == "s" && c.job.documents[1].sessionId == "t"
      && c.job.documents[0].documentId == "d" && c.job.documents[1].documentId == "d" && c.job.state.Preparing?
        && c.job.flow.WebEid?
      && c.job.jobId == "j"
  {
    var answers := UPLOADED.sessions;
    assert answers[1..] == [Uploaded("t")] && [Uploaded("t")][1..] == [];
    assert UploadedCount([Uploaded("t")], 1) == 1 + UploadedCount([], 0) == 1;
    assert UploadedCount(answers, 2) == 2;
  }

  lemma TwoCalculated(j: Job)
    requires |j.documents| == 2 && j.documents[0].sessionId == "s" && j.documents[1].sessionId == "t"
    ensures CalculateDigests(j, "cert", Some(DIGESTS)).ok
  {
    var answers := DIGESTS.sessions;
    assert answers[..1] == [SessionDigest("s", "x")];
    assert LastFor(answers, "t") == Some("y") && LastFor(answers[..1], "s") == Some("x")
      && LastFor(answers, "s") == Some("x");
    var rest := j.documents[1..];
    assert Covered(rest, answers) == 1 + Covered(rest[1..], answers) == 1;
  }

  lemma TwoPrepared()
    ensures Admitted(CONFIG, BATCH)
    ensures
      var j := Prepared("j", BATCH, UPLOADED).job;
      && j.jobId == "j" && j.flow.WebEid? && j.state.AwaitingClientSignature? && !Distinct(j.documents)
      && |j.documents| == 2 && j.documents[0].documentId == "d" && j.documents[1].documentId == "d"
  {
    TwoUploaded();
    var c := CreateSessions(NewJob("j", BATCH), UPLOADED.sessions).job;
    var j1 := c.(signingCert := "cert", authCert := "auth");
    TwoCalculated(j1);
    CalculatedIsAlike(j1, "cert", UPLOADED.digests);
  }

  lemma TwoSubmitted(j: Job)
    requires j.flow.WebEid? && j.state.AwaitingClientSignature? && j.jobId == "j"
    requires |j.documents| == 2 && j.documents[0].documentId == "d" && j.documents[1].documentId == "d"
    ensures
      var o := Submit(CONFIG, j, [Submitted("d", "v")]);
      o.Some? && o.value.state.Finalizing? && o.value.jobId == "j" && !Distinct(o.value.documents)
  {
    var sigs := [Submitted("d", "v")];
    assert sigs[0] in sigs && j.documents[0] in j.documents;
    assert SubmittedIds(sigs) == {"d"} && Ids(j.documents) == {"d"};
    AcceptedIff(CONFIG, j, sigs);
    AttachedKeeps(j.documents, sigs);
    var ds := Submit(CONFIG, j, sigs).value.documents;
    assert ds[0].documentId == ds[1].documentId;
  }

  /** A run in which a batch with a repeated id is prepared, and its submission accepted and queued. */
  lemma RepeatedIdIsAccepted() returns (run: seq<Move>)
    ensures Possible(run)
    ensures
      var s := After(run);
      "j" in s.jobs && s.jobs["j"].state.Finalizing? && !Distinct(s.jobs["j"].documents) && s.queue == ["j"]
  {
    TwoPrepared();
    var j := Prepared("j", BATCH, UPLOADED).job;
    var prepared := Extends([], Prepare("j", BATCH, UPLOADED, Saved));
    assert After(prepared).jobs == map["j" := j] && After(prepared).queue == [];
    TwoQueued(After(prepared), j);
    run := Extends(prepared, SubmitSignatures("j", [Submitted("d", "v")], Saved, true));
  }

  lemma TwoQueued(s: Sys, j: Job)
    requires "j" in s.jobs && s.jobs["j"] == j && s.queue == []
    requires j.flow.WebEid? && j.state.AwaitingClientSignature? && j.jobId == "j"
    requires |j.documents| == 2 && j.documents[0].documentId == "d" && j.documents[1].documentId == "d"
    ensures
      var s' := Next(CONFIG, s, SubmitSignatures("j", [Submitted("d", "v")], Saved, true));
      "j" in s'.jobs && s'.jobs["j"].state.Finalizing? && !Distinct(s'.jobs["j"].documents) && s'.queue == ["j"]
  {
    TwoSubmitted(j);
    AtMostOnce.SettledStore(s, EffectOf(CONFIG, s, SubmitSignatures("j", [Submitted("d", "v")], Saved, true)));
  }
}
