/**
 The process-wide introspect-token cache (entrust/client.go). Concurrent callers interleave
 their two lock sections in any order: looking the token up, and keeping a freshly minted one.
 Times are on one clock, in any unit.
 */
module TokenCache {
  import opened Wrappers

  /** One client-credentials grant: issued upstream, then kept here some time later. */
  datatype Mint = Mint(token: string, ttl: int, issuedAt: int, keptAt: int)

  datatype Section = Lookup(now: int) | Keep(mint: Mint)

  /** The last token kept in a run of lock sections. */
  function LastKept(run: seq<Section>): Option<Mint> {
    if run == [] then None
    else if run[|run| - 1].Keep? then Some(run[|run| - 1].mint)
    else LastKept(run[..|run| - 1])
  }

  /** What a lookup after the given run may serve: the last kept token, with more than the margin left. */
  ghost predicate Serves(run: seq<Section>, margin: int, now: int, token: string) {
    && LastKept(run).Some?
    && var m := LastKept(run).value;
       token == m.token != "" && m.keptAt + m.ttl - now > margin
  }

  class Cache {
    const earlyRefresh: int
    var token: string
    var expiresAt: int
    ghost var run: seq<Section>

    /** The fields are those of the last kept token, whatever the interleaving. */
    ghost predicate Valid()
      reads this
    {
      && earlyRefresh > 0
      && match LastKept(run)
         case None => token == ""
         case Some(m) => token == m.token && expiresAt == m.keptAt + m.ttl
    }

    constructor (configured: int)
      ensures Valid() && run == []
      ensures earlyRefresh == if configured <= 0 then 60 else configured
    {
      earlyRefresh := if configured <= 0 then 60 else configured;
      token, expiresAt, run := "", 0, [];
    }

    /** The first lock section. */
    method Find(now: int) returns (hit: Option<string>)
      requires Valid()
      modifies this`run
      ensures Valid() && run == old(run) + [Lookup(now)]
      ensures forall t :: hit == Some(t) <==> Serves(old(run), earlyRefresh, now, t)
    {
      hit := if token != "" && expiresAt - now > earlyRefresh then Some(token) else None;
      run := run + [Lookup(now)];
    }

    /** The second lock section: expiry is counted from the moment the token is kept. */
    method Put(mint: Mint)
      requires Valid()
      modifies this
      ensures Valid() && run == old(run) + [Keep(mint)]
      ensures token == mint.token && expiresAt == mint.keptAt + mint.ttl
    {
      token := mint.token;
      expiresAt := mint.keptAt + mint.ttl;
      run := run + [Keep(mint)];
    }
  }

  ghost predicate KeptPromptly(run: seq<Section>, margin: int) {
    forall i :: 0 <= i < |run| && run[i].Keep? ==> run[i].mint.keptAt - run[i].mint.issuedAt <= margin
  }

  lemma {:induction false} LastKeptIsKept(run: seq<Section>)
    requires LastKept(run).Some?
    ensures exists i :: 0 <= i < |run| && run[i] == Keep(LastKept(run).value)
  {
    if !run[|run| - 1].Keep? {
      LastKeptIsKept(run[..|run| - 1]);
      var i :| 0 <= i < |run| - 1 && run[..|run| - 1][i] == Keep(LastKept(run).value);
      assert run[i] == Keep(LastKept(run).value);
    }
  }

  /**
   A token served from the cache was minted in this run, and is still unexpired at the issuer
   whenever every mint was kept no later than the refresh margin after it was issued.
   */
  lemma ServedIsUnexpired(run: seq<Section>, margin: int, now: int, token: string)
    requires Serves(run, margin, now, token)
    requires KeptPromptly(run, margin)
    ensures exists i :: 0 <= i < |run| && run[i].Keep? && run[i].mint.token == token
                     && now < run[i].mint.issuedAt + run[i].mint.ttl
  {
    LastKeptIsKept(run);
    var i :| 0 <= i < |run| && run[i] == Keep(LastKept(run).value);
    assert run[i].mint.keptAt - run[i].mint.issuedAt <= margin;
  }
}
