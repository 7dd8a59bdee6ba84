/** The job a handler holds (job/job.go): decoded from the store, then updated in place. */
module JobRecords {
  import opened Wrappers
  import opened Bytes
  import opened Jobs
  import Base64

  class JobRecord {
    var jobId: string
    var flow: Flow
    var state: State
    var signAlgo: string
    var hashAlgorithm: HashAlgorithm
    var digestsSummary: string
    var digestsSummaryAlgo: string
    var documents: seq<Document>
    var oauthState: string
    var pendingLeg: Leg
    var pkceVerifier: string
    var signIdentityId: string
    var signingCert: string
    var authCert: string
    var credentialId: string
    var profileToken: string
    var signingToken: string
    var verificationCode: string
    var err: Option<string>

    /** What would be written to the store now. */
    function Value(): Job
      reads this
    {
      Job(jobId, flow, state, signAlgo, hashAlgorithm, digestsSummary, digestsSummaryAlgo, documents, oauthState,
          pendingLeg, pkceVerifier, signIdentityId, signingCert, authCert, credentialId, profileToken, signingToken,
          verificationCode, err)
    }

    constructor (v: Job)
      ensures Value() == v
    {
      jobId, flow, state, signAlgo, hashAlgorithm := v.jobId, v.flow, v.state, v.signAlgo, v.hashAlgorithm;
      digestsSummary, digestsSummaryAlgo, documents := v.digestsSummary, v.digestsSummaryAlgo, v.documents;
      oauthState, pendingLeg, pkceVerifier := v.oauthState, v.pendingLeg, v.pkceVerifier;
      signIdentityId, signingCert, authCert, credentialId :=
        v.signIdentityId, v.signingCert, v.authCert, v.credentialId;
      profileToken, signingToken, verificationCode, err := v.profileToken, v.signingToken, v.verificationCode, v.err;
    }

    method Transition(to: State) returns (moved: bool)
      modifies this`state
      ensures moved <==> CanTransition(old(state), to)
      ensures state == if moved then to else old(state)
      ensures Value() == Transitioned(old(Value()), to)
    {
      moved := CanTransition(state, to);
      if moved { state := to; }
    }

    method Fail(code: string)
      modifies this`err, this`documents, this`state
      ensures Value() == FailedWith(old(Value()), code)
      ensures state == Failed && err == Some(code) && |documents| == |old(documents)|
      ensures forall k :: 0 <= k < |documents| ==>
        documents[k] == if old(documents)[k].state.DocReady? then old(documents)[k]
                        else if old(documents)[k].error.Some? then old(documents)[k].(state := DocFailed)
                        else old(documents)[k].(state := DocFailed, error := Some(code))
    {
      err := Some(code);
      for i := 0 to |documents|
        invariant err == Some(code) && |documents| == |old(documents)|
        invariant forall k :: 0 <= k < i ==> documents[k] == FailedDocument(old(documents)[k], code)
        invariant forall k :: i <= k < |documents| ==> documents[k] == old(documents)[k]
      {
        if !documents[i].state.DocReady? {
          documents := documents[i := documents[i].(state := DocFailed)];
          if documents[i].error.None? { documents := documents[i := documents[i].(error := Some(code))]; }
        }
      }
      state := Failed;
      assert documents == FailedDocuments(old(documents), code);
    }

    /** Doc: where the first document with the given id is. */
    method Doc(id: string) returns (found: Option<nat>)
      ensures found == DocIndex(documents, id)
      ensures match found
              case None => forall i :: 0 <= i < |documents| ==> documents[i].documentId != id
              case Some(k) =>
                && k < |documents| && documents[k].documentId == id
                && forall i :: 0 <= i < k ==> documents[i].documentId != id
    {
      DocIndexFirst(documents, id);
      for i := 0 to |documents|
        invariant forall k :: 0 <= k < i ==> documents[k].documentId != id
      {
        if documents[i].documentId == id { return Some(i); }
      }
      return None;
    }

    method Digests() returns (digests: Option<seq<seq<Byte>>>)
      ensures digests == Jobs.Digests(documents)
    {
      var out: seq<seq<Byte>> := [];
      for i := 0 to |documents|
        invariant |out| == i
        invariant Jobs.Digests(documents[..i]) == Some(out)
      {
        var d := Base64.Decode(documents[i].digest);
        DigestsOfPrefix(documents, i);
        if d.None? { return None; }
        out := out + [d.value];
      }
      assert documents[..|documents|] == documents;
      return Some(out);
    }
  }

  /** Decoding one more document: its digest is appended, or the whole is refused. */
  lemma {:induction false} DigestsOfPrefix(ds: seq<Document>, i: nat)
    requires i < |ds| && Jobs.Digests(ds[..i]).Some?
    ensures match Base64.Decode(ds[i].digest)
            case None => Jobs.Digests(ds).None?
            case Some(d) => Jobs.Digests(ds[..i + 1]) == Some(Jobs.Digests(ds[..i]).value + [d])
  {
    assert ds[..i + 1][1..] == ds[1..][..i];
    if i == 0 {
      assert ds[..0] == [] && ds[..1] == [ds[0]] && [ds[0]][1..] == [];
      assert forall d: seq<Byte> :: [d] + [] == [] + [d];
    } else {
      assert ds[..i][1..] == ds[1..][..i - 1] && ds[1..][i - 1] == ds[i];
      DigestsOfPrefix(ds[1..], i - 1);
      assert ds[1..][..i - 1 + 1] == ds[1..][..i];
      if Base64.Decode(ds[i].digest).Some? {
        var (first, rest) := (Base64.Decode(ds[0].digest).value, Jobs.Digests(ds[1..][..i - 1]).value);
        var d := Base64.Decode(ds[i].digest).value;
        assert [first] + (rest + [d]) == [first] + rest + [d];
      }
    }
  }
}
