/** The `generations` collection as an abstract record store: job records keyed by their
    job id, `update_one` as an atomic update of one record, and the find/sort/limit query
    behind the history endpoint (backend/server.py, backend/database.py). */
module Store {
  import opened Wrappers

  datatype JobStatus = Pending | Running | Succeeded | Failed

  /** The `status` string stored for each state. */
  function StatusValue(s: JobStatus): string
  {
    match s
    case Pending => "pending"
    case Running => "running"
    case Succeeded => "success"
    case Failed => "failed"
  }

  predicate Terminal(s: JobStatus)
  {
    s == Succeeded || s == Failed
  }

  const DefaultUser: string := "default_user"

  /** One generation record. Timestamps are instants; the ISO-8601 strings the source
      stores sort in the same order. */
  datatype Job = Job(
    jobId: string, prompt: string, status: JobStatus,
    generatedCode: Option<string>, explanation: Option<string>, errorMessage: Option<string>,
    userId: string, createdAt: int, updatedAt: int)

  /** The fields a record holds in each state: nothing before it finishes, code and
      explanation on success, an error message on failure, never both. */
  predicate WellFormed(j: Job)
  {
    && j.userId == DefaultUser
    && (!Terminal(j.status) ==> j.generatedCode.None? && j.explanation.None? && j.errorMessage.None?)
    && (j.status == Succeeded ==> j.generatedCode.Some? && j.explanation.Some? && j.errorMessage.None?)
    && (j.status == Failed ==> j.generatedCode.None? && j.explanation.None? && j.errorMessage.Some?)
  }

  /** The `$set` documents that `process_generation` writes. */
  datatype Patch =
    | MarkRunning(at: int)
    | MarkSucceeded(code: string, explanation: string, at: int)
    | MarkFailed(error: string, at: int)

  /** A `$set` update: the named fields change and every other field keeps its value. */
  function Apply(j: Job, p: Patch): (r: Job)
    ensures r.jobId == j.jobId && r.prompt == j.prompt && r.userId == j.userId && r.createdAt == j.createdAt
    ensures r.updatedAt == p.at
    ensures p.MarkRunning? ==> r == j.(status := Running, updatedAt := p.at)
    ensures p.MarkSucceeded? ==>
      && r.status == Succeeded && r.generatedCode == Some(p.code) && r.explanation == Some(p.explanation)
      && r.errorMessage == j.errorMessage
    ensures p.MarkFailed? ==>
      && r.status == Failed && r.errorMessage == Some(p.error)
      && r.generatedCode == j.generatedCode && r.explanation == j.explanation
  {
    match p
    case MarkRunning(at) => j.(status := Running, updatedAt := at)
    case MarkSucceeded(code, explanation, at) =>
      j.(status := Succeeded, generatedCode := Some(code), explanation := Some(explanation), updatedAt := at)
    case MarkFailed(error, at) => j.(status := Failed, errorMessage := Some(error), updatedAt := at)
  }

  /** The keys of the records owned by `userId`. */
  function Owned(docs: map<string, Job>, userId: string): set<string>
  {
    set k | k in docs && docs[k].userId == userId
  }

  /** How many records `.limit(limit)` lets through: 0 means no limit, and the driver reads
      a negative limit as its absolute value. */
  function Cap(limit: int, available: nat): nat
  {
    if limit == 0 then available
    else var n := if limit < 0 then -limit else limit; if n < available then n else available
  }

  /** `ids` is a correct answer to `find({"user_id": userId}).sort("created_at", -1).limit(limit)`:
      distinct owned records, newest first, as many as the limit allows, and no record left
      out is newer than one returned. */
  ghost predicate IsRecentQuery(docs: map<string, Job>, userId: string, limit: int, ids: seq<string>)
  {
    && |ids| == Cap(limit, |Owned(docs, userId)|)
    && (forall i :: 0 <= i < |ids| ==> ids[i] in Owned(docs, userId))
    && (forall i, j :: 0 <= i < j < |ids| ==> ids[i] != ids[j])
    && (forall i, j :: 0 <= i < j < |ids| ==> docs[ids[i]].createdAt >= docs[ids[j]].createdAt)
    && (forall k, i :: k in Owned(docs, userId) && k !in ids && 0 <= i < |ids| ==>
          docs[k].createdAt <= docs[ids[i]].createdAt)
  }

  function IdsOf(jobs: seq<Job>): (ids: seq<string>)
    ensures |ids| == |jobs| && forall i :: 0 <= i < |jobs| ==> ids[i] == jobs[i].jobId
  {
    if |jobs| == 0 then [] else IdsOf(jobs[..|jobs| - 1]) + [jobs[|jobs| - 1].jobId]
  }

  class Collection {
    var docs: map<string, Job>

    /** Every record is stored under its own job id. */
    ghost predicate Valid()
      reads this
    {
      forall k :: k in docs ==> docs[k].jobId == k
    }

    constructor ()
      ensures docs == map[] && Valid()
    {
      docs := map[];
    }

    /** `insert_one`; job ids are fresh. */
    method InsertOne(doc: Job)
      requires Valid() && doc.jobId !in docs
      modifies this
      ensures Valid()
      ensures docs == old(docs)[doc.jobId := doc]
    {
      docs := docs[doc.jobId := doc];
    }

    /** `update_one({"job_id": jobId}, {"$set": patch})`: no record matches an unknown id. */
    method UpdateOne(jobId: string, patch: Patch)
      requires Valid()
      modifies this
      ensures Valid()
      ensures docs == if jobId in old(docs) then old(docs)[jobId := Apply(old(docs)[jobId], patch)] else old(docs)
    {
      if jobId in docs {
        docs := docs[jobId := Apply(docs[jobId], patch)];
      }
    }

    /** `find_one({"job_id": jobId})`. */
    function FindOne(jobId: string): (r: Option<Job>)
      reads this
      ensures r.Some? <==> jobId in docs
      ensures r.Some? ==> r.value == docs[jobId]
    {
      if jobId in docs then Some(docs[jobId]) else None
    }

    /** The newest of the records with keys in `keys`. */
    method Newest(keys: set<string>) returns (k: string)
      requires keys != {} && keys <= docs.Keys
      ensures k in keys && forall k' :: k' in keys ==> docs[k'].createdAt <= docs[k].createdAt
    {
      k :| k in keys;
      var rest := keys - {k};
      while rest != {}
        invariant rest <= keys && k in keys
        invariant forall k' :: k' in keys - rest ==> docs[k'].createdAt <= docs[k].createdAt
        decreases rest
      {
        var x :| x in rest;
        if docs[x].createdAt > docs[k].createdAt {
          k := x;
        }
        rest := rest - {x};
      }
    }

    /** `find({"user_id": userId}).sort("created_at", -1).limit(limit)`: the cursor's records. */
    method FindRecent(userId: string, limit: int) returns (cursor: seq<Job>)
      requires Valid()
      ensures IsRecentQuery(docs, userId, limit, IdsOf(cursor))
      ensures forall i :: 0 <= i < |cursor| ==> cursor[i].jobId in docs && docs[cursor[i].jobId] == cursor[i]
    {
      var ids := SelectRecent(userId, limit);
      var d := docs;
      assert forall i :: 0 <= i < |ids| ==> ids[i] in Owned(d, userId);
      cursor := seq(|ids|, i requires 0 <= i < |ids| && ids[i] in d => d[ids[i]]);
      assert IdsOf(cursor) == ids;
    }

    /** The keys of the cursor: repeatedly the newest owned record not yet taken. */
    method SelectRecent(userId: string, limit: int) returns (ids: seq<string>)
      ensures IsRecentQuery(docs, userId, limit, ids)
    {
      var owned := set k | k in docs && docs[k].userId == userId;
      var cap := Cap(limit, |owned|);
      var left := owned;
      ids := [];
      while |ids| < cap
        invariant left <= owned && owned == Owned(docs, userId)
        invariant |ids| + |left| == |owned| && |ids| <= cap
        invariant forall i :: 0 <= i < |ids| ==> ids[i] in owned && ids[i] !in left
        invariant forall k :: k in owned && k !in left ==> k in ids
        invariant forall i, j :: 0 <= i < j < |ids| ==> ids[i] != ids[j]
        invariant forall i, j :: 0 <= i < j < |ids| ==> docs[ids[i]].createdAt >= docs[ids[j]].createdAt
        invariant forall k, i :: k in left && 0 <= i < |ids| ==> docs[k].createdAt <= docs[ids[i]].createdAt
        decreases cap - |ids|
      {
        var k := Newest(left);
        ids := ids + [k];
        left := left - {k};
      }
    }
  }
}
