/**
 Everything outside the service: what an upstream call may answer, and the log of what was
 asked. An answer is a free choice of the provider, so it is a parameter of the step that asks.
 */
module Upstream {
  import opened Wrappers
  import opened Bytes
  import opened Jobs
  import AuthCert

  // ---- Answers ----

  datatype SessionDigest = SessionDigest(sessionId: string, digest: string)

  /** CalculateDigest's answer: one digest per session, one summary and algorithms for all. */
  datatype DigestAnswer = DigestAnswer(
    sessions: seq<SessionDigest>, summary: string, algorithm: string, signatureAlgorithm: string)

  /** Starting a session for one document and uploading to it. */
  datatype SessionAnswer = NoSession | NotUploaded(sessionId: string) | Uploaded(sessionId: string)

  datatype Token = Token(access: string, credentialId: string)

  /** A CSC credential: its id, whether it may sign this batch, its certificate, its algorithm per hash. */
  datatype Credential = Credential(
    credentialId: string, maySign: bool, leaf: Option<string>, signAlgo: map<HashAlgorithm, string>)

  /** The TrustedX identities: the signing one selected and its certificate, and the authentication one's. */
  datatype Identities = Identities(
    signing: Option<string>, signingCert: Option<string>, authSelected: bool, authCert: Option<string>)

  /** What the signature authorization says the person confirmed. */
  datatype Authorized = Authorized(credentialId: string, digests: seq<seq<Byte>>)

  /** The answers one Prepare or Callback may meet; each handler reads those it asks for. */
  datatype Answers = Answers(
    sessions: seq<SessionAnswer>,
    token: Option<Token>,
    identities: Option<Identities>,
    credential: Option<Credential>,
    digests: Option<DigestAnswer>,
    state: Option<string>,
    pkce: Option<string>,
    pushed: bool,
    authorized: Option<Authorized>)

  /** The answers one Sign may meet. */
  datatype SignAnswers = SignAnswers(
    certParses: bool,
    hashes: Option<seq<Option<seq<Byte>>>>, // CSC signHash: the signatures it returned, None where it has none
    verified: seq<bool>,                    // VerifySignature, call by call
    raw: Option<seq<string>>,               // TrustedX server/raw
    code: Option<string>,                   // the verification code of the digest
    device: Option<Option<string>>)         // TrustedX device/raw: pushed, and then signed

  // ---- The log ----

  datatype Operation = SignOp | ArchiveOp

  datatype Entry = Entry(sessionId: string, signatureValue: string)

  /** One call, with the job as its caller held it. */
  datatype Event =
    | Calculated(job: Job, certificate: string, sessions: seq<string>, signAsPdf: bool, createNewEdoc: bool,
                 answer: DigestAnswer)
    | CredentialInfo(job: Job, asked: string, credentialId: string, leaf: Option<string>)
    | IdentityInfo(job: Job, identities: Identities)
    | Consent(job: Job, state: string, identity: string, summary: string, summaryAlgo: string)
    | Pushed(job: Job, state: string, credentialId: string, digests: seq<seq<Byte>>, hash: HashAlgorithm,
             accepted: bool)
    | Bound(job: Job, credentialId: string, digests: seq<seq<Byte>>)
    | SignHash(job: Job, credentialId: string, digests: seq<seq<Byte>>, hash: HashAlgorithm, algo: string,
               returned: Option<seq<Option<seq<Byte>>>>)
    | Checked(job: Job, certificate: string, algo: string, hash: HashAlgorithm, digest: seq<Byte>, value: seq<Byte>,
              ok: bool)
    | ServerRaw(job: Job, identity: string, texts: seq<string>, algo: string, signatures: seq<string>)
    | DevicePush(job: Job, identity: string, text: string, code: string, signature: Option<string>)
    | Requested(job: Job, source: AuthCert.Source, op: Operation)
    | Refused(job: Job, op: Operation)
    | Finalize(job: Job, entries: seq<Entry>, certificate: string, taken: bool)
    | Archive(job: Job, document: nat, sessionId: string, certificate: string)
    | Enqueue(job: Job)
    | Dequeue(id: string)

  function Subject(e: Event): string {
    if e.Dequeue? then e.id else e.job.jobId
  }

  /** The kinds of call that are counted. */
  datatype Kind = CalculatedKind | SignKind | FinalizeKind | EnqueueKind | DequeueKind
                | RequestedKind | RefusedKind | ArchiveKind | OtherKind

  function KindOf(e: Event): Kind {
    match e
    case Calculated(_, _, _, _, _, _) => CalculatedKind
    case Consent(_, _, _, _, _) => OtherKind
    case Pushed(_, _, _, _, _, _) => OtherKind
    case SignHash(_, _, _, _, _, _) => SignKind
    case ServerRaw(_, _, _, _, _) => SignKind
    case DevicePush(_, _, _, _, _) => SignKind
    case Finalize(_, _, _, _) => FinalizeKind
    case Enqueue(_) => EnqueueKind
    case Dequeue(_) => DequeueKind
    case Requested(_, _, _) => RequestedKind
    case Refused(_, _) => RefusedKind
    case Archive(_, _, _, _) => ArchiveKind
    case Bound(_, _, _) => OtherKind
    case CredentialInfo(_, _, _, _) => OtherKind
    case IdentityInfo(_, _) => OtherKind
    case Checked(_, _, _, _, _, _, _) => OtherKind
  }

  /** How many calls of a kind a log holds for one job. */
  function Calls(log: seq<Event>, kind: Kind, id: string): nat {
    if log == [] then 0
    else
      var e := log[|log| - 1];
      Calls(log[..|log| - 1], kind, id) + (if KindOf(e) == kind && Subject(e) == id then 1 else 0)
  }

  /** How many calls of a kind a log holds in all. */
  function Total(log: seq<Event>, kind: Kind): nat {
    if log == [] then 0
    else Total(log[..|log| - 1], kind) + (if KindOf(log[|log| - 1]) == kind then 1 else 0)
  }

  lemma {:induction false} CallsConcat(log: seq<Event>, more: seq<Event>, kind: Kind, id: string)
    ensures Calls(log + more, kind, id) == Calls(log, kind, id) + Calls(more, kind, id)
  {
    if more == [] {
      assert log + more == log;
    } else {
      var all := log + more;
      CallsConcat(log, more[..|more| - 1], kind, id);
      assert all[..|all| - 1] == log + more[..|more| - 1] && all[|all| - 1] == more[|more| - 1];
    }
  }

  lemma {:induction false} TotalConcat(log: seq<Event>, more: seq<Event>, kind: Kind)
    ensures Total(log + more, kind) == Total(log, kind) + Total(more, kind)
  {
    if more == [] {
      assert log + more == log;
    } else {
      var all := log + more;
      TotalConcat(log, more[..|more| - 1], kind);
      assert all[..|all| - 1] == log + more[..|more| - 1] && all[|all| - 1] == more[|more| - 1];
    }
  }

  lemma {:induction false} UncalledIsAbsent(log: seq<Event>, e: Event)
    requires e in log
    ensures Calls(log, KindOf(e), Subject(e)) >= 1
  {
    if log[|log| - 1] != e { UncalledIsAbsent(log[..|log| - 1], e); }
  }

  /** A kind called once for a job was called with one set of arguments. */
  lemma {:induction false} CalledOnceIsUnique(log: seq<Event>, a: Event, b: Event)
    requires a in log && b in log && KindOf(a) == KindOf(b) && Subject(a) == Subject(b)
    requires Calls(log, KindOf(a), Subject(a)) <= 1
    ensures a == b
  {
    var init := log[..|log| - 1];
    if log[|log| - 1] == a {
      if b in init { UncalledIsAbsent(init, b); }
    } else if log[|log| - 1] == b {
      UncalledIsAbsent(init, a);
    } else {
      CalledOnceIsUnique(init, a, b);
    }
  }
}
