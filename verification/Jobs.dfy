/**
 The signing-job aggregate as it is stored (job/job.go): a value, because the store keeps its
 JSON and every load decodes a fresh copy. Timestamps, locales and redirect targets, which no
 decision reads, are not part of the model; of an error only its code is.
 */
module Jobs {
  import opened Wrappers
  import opened Bytes
  import Base64

  datatype Flow =
    | WebEid | LegacyEid                                // the local card, client-side
    | EparakstsMobile | EidScan | EparakstsMobileEseal  // TrustedX
    | CscEidScan | CscEidPlugin                         // the CSC API layer
    | Unregistered(name: string)
  {
    predicate IsCsc() { CscEidScan? || CscEidPlugin? }
    predicate IsClientSide() { WebEid? || LegacyEid? }
    predicate IsTrustedX() { EparakstsMobile? || EidScan? || EparakstsMobileEseal? }
    predicate Registered() { !Unregistered? }
  }

  datatype State =
    | Preparing | AwaitingAuthorization | AwaitingClientSignature | Signing | Finalizing | Ready | Failed
  {
    predicate Terminal() { Ready? || Failed? }
    /** The states a worker has something to do in. */
    predicate Workable() { Signing? || Finalizing? }
  }

  /** The transition table; staying put is always allowed. */
  predicate CanTransition(from: State, to: State) {
    || from == to
    || match from
       case Preparing => to.AwaitingAuthorization? || to.AwaitingClientSignature? || to.Failed?
       case AwaitingAuthorization => to.Signing? || to.Failed?
       case AwaitingClientSignature => to.Finalizing? || to.Failed?
       case Signing => to.Finalizing? || to.Failed?
       case Finalizing => to.Ready? || to.Failed?
       case Ready => false
       case Failed => false
  }

  /** The eleven moves of the table, and no other. */
  lemma TableIsExact(from: State, to: State)
    ensures CanTransition(from, to) <==> from == to || (from, to) in {
      (Preparing, AwaitingAuthorization), (Preparing, AwaitingClientSignature), (Preparing, Failed),
      (AwaitingAuthorization, Signing), (AwaitingAuthorization, Failed),
      (AwaitingClientSignature, Finalizing), (AwaitingClientSignature, Failed),
      (Signing, Finalizing), (Signing, Failed), (Finalizing, Ready), (Finalizing, Failed)}
  {
  }

  /** Zero or more transitions of the table. */
  predicate Leads(from: State, to: State) {
    || from == to
    || (to.Failed? && !from.Ready?)
    || (from.Preparing? && !to.Preparing?)
    || (from.AwaitingAuthorization? && (to.Signing? || to.Finalizing? || to.Ready?))
    || (from.AwaitingClientSignature? && (to.Finalizing? || to.Ready?))
    || (from.Signing? && (to.Finalizing? || to.Ready?))
    || (from.Finalizing? && to.Ready?)
  }

  ghost predicate Path(states: seq<State>) {
    && states != []
    && forall i :: 0 <= i < |states| - 1 ==> CanTransition(states[i], states[i + 1])
  }

  /** `Leads` is exactly reachability by the transition table. */
  lemma LeadsIsTheClosure(from: State, to: State)
    ensures Leads(from, to) <==> exists p :: Path(p) && p[0] == from && p[|p| - 1] == to
  {
    if Leads(from, to) {
      var p :=
        if from == to then [from]
        else if CanTransition(from, to) then [from, to]
        else if from.Preparing? && to.Signing? then [from, AwaitingAuthorization, to]
        else if from.Preparing? && to.Finalizing? then [from, AwaitingClientSignature, to]
        else if from.Preparing? then [from, AwaitingClientSignature, Finalizing, to]
        else if from.AwaitingAuthorization? && to.Ready? then [from, Signing, Finalizing, to]
        else if from.AwaitingAuthorization? then [from, Signing, to]
        else [from, Finalizing, to];
      assert Path(p);
    }
    forall p | Path(p) && p[0] == from && p[|p| - 1] == to ensures Leads(from, to) {
      PathLeads(p, |p| - 1);
    }
  }

  lemma {:induction false} PathLeads(p: seq<State>, k: nat)
    requires Path(p) && k < |p|
    ensures Leads(p[0], p[k])
  {
    if k > 0 {
      PathLeads(p, k - 1);
      assert CanTransition(p[k - 1], p[k - 1 + 1]);
    }
  }

  datatype Format = Pades | Xades
  datatype Operation = Create | Parallel
  datatype DocState = DocPending | DocReady | DocFailed

  datatype Document = Document(
    documentId: string,
    format: Format,
    operation: Operation,
    sessionId: string,
    digest: string,            // base64, opaque: echoed to the signer, never recomputed
    digestAlgorithm: string,
    signatureValue: string,    // base64, transient
    state: DocState,
    error: Option<string>)

  /** The redirect leg the next callback completes. */
  datatype Leg = NoLeg | ProfileLeg | SignLeg | CredentialLeg

  /** The digest algorithm of a batch, once one is known. */
  datatype HashAlgorithm = NoHash | Sha256 | Sha384 | Sha512
  {
    function DigestLength(): nat { match this case NoHash => 0 case Sha256 => 32 case Sha384 => 48 case Sha512 => 64 }
  }

  datatype Job = Job(
    jobId: string,
    flow: Flow,
    state: State,
    signAlgo: string,
    hashAlgorithm: HashAlgorithm,
    digestsSummary: string,
    digestsSummaryAlgo: string,
    documents: seq<Document>,
    oauthState: string,
    pendingLeg: Leg,
    pkceVerifier: string,
    signIdentityId: string,
    signingCert: string,
    authCert: string,
    credentialId: string,
    profileToken: string,
    signingToken: string,
    verificationCode: string,
    err: Option<string>)

  /** Transition: the new state when the table allows it, and no change otherwise. */
  function Transitioned(j: Job, to: State): Job {
    if CanTransition(j.state, to) then j.(state := to) else j
  }

  function FailedDocument(d: Document, code: string): Document {
    if d.state.DocReady? then d
    else d.(state := DocFailed, error := if d.error.None? then Some(code) else d.error)
  }

  function FailedDocuments(ds: seq<Document>, code: string): seq<Document> {
    seq(|ds|, i requires 0 <= i < |ds| => FailedDocument(ds[i], code))
  }

  /** Fail: FAILED whatever the table says; documents already READY stay so. */
  function FailedWith(j: Job, code: string): Job {
    j.(err := Some(code), documents := FailedDocuments(j.documents, code), state := Failed)
  }

  /** The first document with the given id, as an index. */
  function DocIndex(ds: seq<Document>, id: string): Option<nat> {
    if ds == [] then None
    else if ds[0].documentId == id then Some(0)
    else match DocIndex(ds[1..], id) case None => None case Some(k) => Some(k + 1)
  }

  /** The documents' digests decoded, in document order; None when one is not base64. */
  function Digests(ds: seq<Document>): Option<seq<seq<Byte>>> {
    if ds == [] then Some([])
    else
      match (Base64.Decode(ds[0].digest), Digests(ds[1..]))
      case (Some(d), Some(rest)) => Some([d] + rest)
      case _ => None
  }

  lemma {:induction false} DigestsAt(ds: seq<Document>, k: nat)
    requires Digests(ds).Some? && k < |ds|
    ensures |Digests(ds).value| == |ds| && Base64.Decode(ds[k].digest) == Some(Digests(ds).value[k])
  {
    if |ds| > 1 { DigestsAt(ds[1..], if k == 0 then 0 else k - 1); }
  }

  /** Document k is the first with the id. */
  ghost predicate FirstWith(ds: seq<Document>, id: string, k: int) {
    0 <= k < |ds| && ds[k].documentId == id && forall i :: 0 <= i < k ==> ds[i].documentId != id
  }

  lemma {:induction false} DocIndexFirst(ds: seq<Document>, id: string)
    ensures match DocIndex(ds, id)
            case None => forall i :: 0 <= i < |ds| ==> ds[i].documentId != id
            case Some(k) => k < |ds| && ds[k].documentId == id && forall i :: 0 <= i < k ==> ds[i].documentId != id
  {
    if ds != [] {
      DocIndexFirst(ds[1..], id);
      if ds[0].documentId != id {
        match DocIndex(ds[1..], id)
        case None =>
          forall i | 0 <= i < |ds| ensures ds[i].documentId != id { if i > 0 { assert ds[1..][i - 1] == ds[i]; } }
        case Some(k) =>
          forall i | 0 <= i < k + 1 ensures ds[i].documentId != id { if i > 0 { assert ds[1..][i - 1] == ds[i]; } }
      }
    }
  }
}
