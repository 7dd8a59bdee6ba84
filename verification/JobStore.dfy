/**
 The store (job/store.go): the job values, the OAuth-state index and the work queue in Redis.
 How each Redis command went is a parameter; a value read is a fresh copy.
 */
module JobStore {
  import opened Wrappers
  import opened Jobs
  import opened Machine
  import opened JobRecords

  class Store {
    var jobs: map<string, Job>
    var index: map<string, string>
    var queue: seq<string>   // oldest first

    constructor ()
      ensures jobs == map[] && index == map[] && queue == []
    {
      jobs, index, queue := map[], map[], [];
    }

    method Save(j: JobRecord, redis: Save) returns (ok: bool)
      modifies this`jobs, this`index
      ensures ok <==> redis.Saved?
      ensures jobs == if redis.Written() then old(jobs)[j.jobId := j.Value()] else old(jobs)
      ensures index == if redis.Indexed() && j.oauthState != "" then old(index)[j.oauthState := j.jobId] else old(index)
    {
      if redis.Unwritten? { return false; }
      jobs := jobs[j.jobId := j.Value()];
      if j.oauthState != "" && redis.Indexed() { index := index[j.oauthState := j.jobId]; }
      return redis.Saved?;
    }

    method Load(id: string, reached: bool) returns (j: JobRecord?)
      ensures j == null <==> !reached || id !in jobs
      ensures j != null ==> fresh(j) && j.Value() == jobs[id]
    {
      if !reached || id !in jobs { return null; }
      j := new JobRecord(jobs[id]);
    }

    method LoadByState(state: string, resolved: bool, reached: bool) returns (j: JobRecord?)
      ensures j == null <==> !resolved || !reached || state !in index || index[state] !in jobs
      ensures j != null ==> fresh(j) && j.Value() == jobs[index[state]]
    {
      if !resolved || state !in index { return null; }
      j := Load(index[state], reached);
    }

    method ClearState(state: string, redis: bool)
      modifies this`index
      ensures index == if redis && state != "" then old(index) - {state} else old(index)
    {
      if state != "" && redis { index := index - {state}; }
    }

    method Delete(j: JobRecord, unindexed: bool, deleted: bool, acknowledged: bool) returns (ok: bool)
      modifies this`jobs, this`index
      ensures ok <==> deleted && acknowledged
      ensures index == if unindexed && j.oauthState != "" then old(index) - {j.oauthState} else old(index)
      ensures jobs == if deleted then old(jobs) - {j.jobId} else old(jobs)
    {
      if j.oauthState != "" && unindexed { index := index - {j.oauthState}; }
      if deleted { jobs := jobs - {j.jobId}; }
      return deleted && acknowledged;
    }

    method EnqueueWork(id: string, redis: bool)
      modifies this`queue
      ensures queue == if redis then old(queue) + [id] else old(queue)
    {
      if redis { queue := queue + [id]; }
    }

    /** The oldest id queued, or None when there is none; an answer lost on the way is None too. */
    method DequeueWork(lost: bool) returns (id: Option<string>)
      modifies this`queue
      ensures if old(queue) == [] then id.None? && queue == []
              else old(queue) == [old(queue)[0]] + queue && id == if lost then None else Some(old(queue)[0])
    {
      if queue == [] { return None; }
      id := if lost then None else Some(queue[0]);
      queue := queue[1..];
    }
  }
}
