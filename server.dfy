/** The HTTP layer's job lifecycle (backend/server.py): submission creates a pending record
    and queues its processing; the background task marks it running, calls the language
    model and writes the terminal result; status and history are read-only queries; and a
    middleware applies the rate limiter to every path but the health check. */
module Server {
  import opened Wrappers
  import opened Text
  import opened Breaker
  import opened Limiter
  import opened Llm
  import opened Store

  const HealthPath: string := "/api/health"
  const RemainingHeader: string := "X-RateLimit-Remaining"
  const RetryAfterHeader: string := "Retry-After"
  const RetryAfterSeconds: nat := 60
  const UnknownClient: string := "unknown"
  const JobStartedMessage: string := "Generation job started"
  const NotFoundDetail: string := "Job not found"
  const RateLimitError: string := "Rate limit exceeded"
  const RateLimitMessage: string := "Too many requests. Please try again in a minute."
  /** The `limit` of `/api/history` when the query does not give one. */
  const DefaultHistoryLimit: int := 20
  const ApiMessage: string := "AI UI Generator API"
  const ApiVersion: string := "1.0.0"

  /** The routes of the API; the path is what the middleware looks at. */
  datatype Endpoint = Root | Health | Generate(prompt: string) | JobStatus(jobId: string) | History(limit: Option<int>)

  /** The request path of each route; only the health check has the health path. */
  function PathOf(e: Endpoint): (path: string)
    ensures path == HealthPath <==> e.Health?
  {
    match e
    case Root => "/api/"
    case Health => HealthPath
    case Generate(_) => "/api/generate"
    case JobStatus(id) => assert ("/api/jobs/" + id)[5] == 'j'; "/api/jobs/" + id
    case History(_) => "/api/history"
  }

  /** A request: its route and the client's host, when the transport knows it. */
  datatype Request = Request(endpoint: Endpoint, client: Option<string>)

  /** The rate-limiter key of a request. */
  function ClientKey(client: Option<string>): (key: string)
    ensures client.Some? ==> key == client.value
    ensures client.None? ==> key == UnknownClient
  {
    client.GetOr(UnknownClient)
  }

  datatype GenerateResponse = GenerateResponse(jobId: string, status: string, message: string)

  datatype JobStatusResponse = JobStatusResponse(
    jobId: string, status: string, generatedCode: Option<string>, explanation: Option<string>,
    errorMessage: Option<string>, prompt: Option<string>, createdAt: int)

  datatype HistoryItem = HistoryItem(
    id: string, prompt: string, status: string, generatedCode: Option<string>, createdAt: int)

  datatype HttpError = HttpError(status: nat, detail: string)

  /** The JSON bodies the API answers with. */
  datatype Body =
    | RootBody(message: string, version: string)
    | HealthBody(status: string, llm: HealthStatus)
    | GenerateBody(generated: GenerateResponse)
    | JobBody(job: JobStatusResponse)
    | HistoryBody(history: seq<HistoryItem>)
    | ErrorBody(detail: string)
    | RateLimitedBody(error: string, message: string, retryAfter: nat)

  /** A response: status code, body, and the headers the core sets. */
  datatype Response = Response(status: nat, body: Body, headers: map<string, string>)

  /** The 429 answer of the middleware. */
  const TooManyRequests: Response :=
    Response(429, RateLimitedBody(RateLimitError, RateLimitMessage, RetryAfterSeconds),
             map[RetryAfterHeader := NatToString(RetryAfterSeconds)])

  /** The answer of `/api/jobs/{job_id}` over the job table: the record's status view, or
      404 with the not-found detail when no record has that id. */
  function JobStatusAnswer(docs: map<string, Job>, jobId: string): (resp: Response)
    ensures resp.status == 200 <==> jobId in docs
    ensures resp.status == 404 <==> jobId !in docs
    ensures jobId in docs ==> resp.body.JobBody? && resp.body.job == StatusView(jobId, docs[jobId])
    ensures jobId !in docs ==> resp.body == ErrorBody(NotFoundDetail)
    ensures resp.headers == map[]
  {
    if jobId in docs then Response(200, JobBody(StatusView(jobId, docs[jobId])), map[])
    else Response(404, ErrorBody(NotFoundDetail), map[])
  }

  /** A queued background task: `process_generation(job_id, prompt)`. */
  datatype Task = Task(jobId: string, prompt: string)

  /** The record `generate_ui` inserts; both of its timestamps are `now`. */
  function NewJob(jobId: string, prompt: string, now: int): (j: Job)
    ensures WellFormed(j) && j.status == Pending
    ensures j.jobId == jobId && j.prompt == prompt && j.userId == DefaultUser && j.createdAt == now
  {
    Job(jobId, prompt, Pending, None, None, None, DefaultUser, now, now)
  }

  /** The update `process_generation` writes for the language model's outcome. */
  function Finish(result: Result<Generated, string>, at: int): (p: Patch)
    ensures p.at == at
    ensures result.Success? <==> p.MarkSucceeded?
    ensures result.Success? ==> p == MarkSucceeded(result.value.code, result.value.explanation, at)
    ensures result.Failure? ==> p == MarkFailed(result.error, at)
  {
    match result
    case Success(g) => MarkSucceeded(g.code, g.explanation, at)
    case Failure(e) => MarkFailed(e, at)
  }

  /** The record after `process_generation` ran with the given language-model outcome:
      marked running at `startedAt`, then success with the generated code and explanation,
      or failed with the error's message, at `finishedAt`. */
  function Settle(j: Job, result: Result<Generated, string>, startedAt: int, finishedAt: int): (r: Job)
    ensures Terminal(r.status)
    ensures r.status == Succeeded <==> result.Success?
    ensures result.Success? ==>
      r.generatedCode == Some(result.value.code) && r.explanation == Some(result.value.explanation)
    ensures result.Failure? ==> r.errorMessage == Some(result.error)
    ensures WellFormed(j) && !Terminal(j.status) ==> WellFormed(r)
    ensures r.jobId == j.jobId && r.prompt == j.prompt && r.userId == j.userId && r.createdAt == j.createdAt
    ensures r.updatedAt == finishedAt
  {
    Apply(Apply(j, MarkRunning(startedAt)), Finish(result, finishedAt))
  }

  /** The job table after `process_generation(jobId, ...)`: only that record changes, and
      only when it exists (the source's update of a missing id matches nothing). */
  function SettleIn(docs: map<string, Job>, jobId: string, result: Result<Generated, string>,
                    startedAt: int, finishedAt: int): (r: map<string, Job>)
    ensures r.Keys == docs.Keys
    ensures forall k :: k in docs && k != jobId ==> r[k] == docs[k]
    ensures jobId in docs ==> r[jobId] == Settle(docs[jobId], result, startedAt, finishedAt)
  {
    if jobId in docs then docs[jobId := Settle(docs[jobId], result, startedAt, finishedAt)] else docs
  }

  /** The two single-record updates of `process_generation` compose into `SettleIn`. */
  lemma TwoUpdates(docs: map<string, Job>, jobId: string, result: Result<Generated, string>,
                   startedAt: int, finishedAt: int)
    ensures var running := if jobId in docs then docs[jobId := Apply(docs[jobId], MarkRunning(startedAt))] else docs;
      var done := if jobId in running then running[jobId := Apply(running[jobId], Finish(result, finishedAt))] else running;
      done == SettleIn(docs, jobId, result, startedAt, finishedAt)
  {
  }

  /** The projection `get_job_status` answers with. */
  function StatusView(jobId: string, j: Job): (v: JobStatusResponse)
    ensures v.jobId == jobId && v.prompt == Some(j.prompt) && v.createdAt == j.createdAt
    ensures v.generatedCode == j.generatedCode && v.explanation == j.explanation && v.errorMessage == j.errorMessage
    ensures forall s: JobStatus :: v.status == StatusValue(s) <==> s == j.status
  {
    JobStatusResponse(jobId, StatusValue(j.status), j.generatedCode, j.explanation, j.errorMessage,
                      Some(j.prompt), j.createdAt)
  }

  /** A poll of a well-formed record shows code and explanation exactly when it reports
      success, an error message exactly when it reports failure, and never both. */
  lemma PollShowsOneOutcome(jobId: string, j: Job)
    requires WellFormed(j)
    ensures var v := StatusView(jobId, j);
      && (v.generatedCode.Some? <==> v.status == "success")
      && (v.explanation.Some? <==> v.status == "success")
      && (v.errorMessage.Some? <==> v.status == "failed")
  {
  }

  /** The projection `get_history` lists each record as. */
  function ToItem(j: Job): (item: HistoryItem)
    ensures item.id == j.jobId && item.prompt == j.prompt && item.createdAt == j.createdAt
    ensures item.generatedCode == j.generatedCode
    ensures forall s: JobStatus :: item.status == StatusValue(s) <==> s == j.status
  {
    HistoryItem(j.jobId, j.prompt, StatusValue(j.status), j.generatedCode, j.createdAt)
  }

  function ItemIds(items: seq<HistoryItem>): (ids: seq<string>)
    ensures |ids| == |items| && forall i :: 0 <= i < |items| ==> ids[i] == items[i].id
  {
    if |items| == 0 then [] else ItemIds(items[..|items| - 1]) + [items[|items| - 1].id]
  }

  lemma SameIds(items: seq<HistoryItem>, jobs: seq<Job>)
    requires |items| == |jobs| && forall i :: 0 <= i < |jobs| ==> items[i] == ToItem(jobs[i])
    ensures ItemIds(items) == IdsOf(jobs)
  {
    var a, b := ItemIds(items), IdsOf(jobs);
    assert forall i :: 0 <= i < |a| ==> a[i] == b[i];
  }

  /** Submitting a prompt and processing it in a world whose first reply is read, with a
      closed breaker, leaves a success record holding the cleaned reply and no error. */
  lemma SubmitThenSucceed(cfg: Config, c: Counters, jobId: string, prompt: string, now: int,
                          startedAt: int, finishedAt: int, world: seq<Round>)
    requires |world| == MaxAttempts && c.state == Closed && world[0].upstream.Replied?
    ensures var run := Protocol(cfg, c, true, prompt, world);
      var j := Settle(NewJob(jobId, prompt, now), run.result, startedAt, finishedAt);
      && j.status == Succeeded && WellFormed(j)
      && j.generatedCode == Some(CleanCode(world[0].upstream.content))
      && j.explanation == Some(ExplanationPrefix + prompt)
      && j.errorMessage.None?
  {
    FirstAttemptSucceeds(cfg, c, prompt, world);
  }

  /** Submitting a prompt and processing it against an upstream that always raises, with a
      closed breaker well below its threshold, leaves a failed record carrying the last
      attempt's error, after three breaker failures (one per attempt, not one in all). */
  lemma SubmitThenFail(cfg: Config, c: Counters, jobId: string, prompt: string, now: int,
                       startedAt: int, finishedAt: int, world: seq<Round>)
    requires |world| == MaxAttempts && c.state == Closed
    requires c.failureCount + MaxAttempts - 1 < cfg.failureThreshold
    requires forall i :: 0 <= i < |world| ==> world[i].upstream.Raised?
    ensures var run := Protocol(cfg, c, true, prompt, world);
      var j := Settle(NewJob(jobId, prompt, now), run.result, startedAt, finishedAt);
      && j.status == Failed && WellFormed(j)
      && j.errorMessage == Some(FailurePrefix + world[2].upstream.error)
      && run.breaker.failureCount == c.failureCount + 3
  {
    AlwaysRaising(cfg, c, prompt, world);
  }

  function QueuedIds(tasks: seq<Task>): set<string>
  {
    set i | 0 <= i < |tasks| :: tasks[i].jobId
  }

  /** The queue agrees with the job table: every record is well formed and never left
      running; a record is pending exactly when its task is queued, each task is queued
      once, and it carries its record's prompt. */
  ghost predicate QueueInv(docs: map<string, Job>, tasks: seq<Task>)
  {
    && (forall i :: 0 <= i < |tasks| ==>
          && tasks[i].jobId in docs
          && docs[tasks[i].jobId].status == Pending
          && docs[tasks[i].jobId].prompt == tasks[i].prompt)
    && (forall i, j :: 0 <= i < j < |tasks| ==> tasks[i].jobId != tasks[j].jobId)
    && (forall id :: id in docs ==>
          && WellFormed(docs[id])
          && docs[id].status != Running
          && (docs[id].status == Pending ==> id in QueuedIds(tasks)))
  }

  /** `generate_ui` keeps the queue in agreement: a fresh pending record and its task. */
  lemma QueueAfterSubmit(docs: map<string, Job>, tasks: seq<Task>, jobId: string, prompt: string, now: int)
    requires QueueInv(docs, tasks) && jobId !in docs
    ensures QueueInv(docs[jobId := NewJob(jobId, prompt, now)], tasks + [Task(jobId, prompt)])
  {
    var tasks' := tasks + [Task(jobId, prompt)];
    assert tasks'[|tasks|].jobId == jobId;
    forall id | id in docs && docs[id].status == Pending
      ensures id in QueuedIds(tasks')
    {
      var i :| 0 <= i < |tasks| && tasks[i].jobId == id;
      assert tasks'[i].jobId == id;
    }
  }

  /** Running the oldest task to its end keeps the queue in agreement: its record becomes
      terminal and leaves the queue; every other record and task stays as it was. */
  lemma QueueAfterRun(docs: map<string, Job>, tasks: seq<Task>, result: Result<Generated, string>,
                      startedAt: int, finishedAt: int)
    requires QueueInv(docs, tasks) && tasks != []
    ensures QueueInv(SettleIn(docs, tasks[0].jobId, result, startedAt, finishedAt), tasks[1..])
  {
    var t := tasks[0];
    var docs' := SettleIn(docs, t.jobId, result, startedAt, finishedAt);
    var rest := tasks[1..];
    forall i | 0 <= i < |rest|
      ensures rest[i].jobId in docs' && docs'[rest[i].jobId] == docs[rest[i].jobId]
    {
      assert rest[i] == tasks[i + 1];
    }
    forall id | id in docs && id != t.jobId && docs[id].status == Pending
      ensures id in QueuedIds(rest)
    {
      var i :| 0 <= i < |tasks| && tasks[i].jobId == id;
      assert i != 0;
      assert rest[i - 1].jobId == id;
    }
  }

  class App {
    const limiter: RateLimiter
    const llm: LlmService
    /** `generations_collection`. */
    const store: Collection
    /** The background tasks scheduled and not yet run, oldest first. */
    var tasks: seq<Task>

    /** Between requests and tasks the breaker and the table are consistent and the
        queue agrees with the table. */
    ghost predicate Valid()
      reads this, store, llm.breaker
    {
      store.Valid() && llm.breaker.Valid() && QueueInv(store.docs, tasks)
    }

    constructor (limiter: RateLimiter, llm: LlmService)
      requires llm.breaker.Valid()
      ensures Valid()
      ensures this.limiter == limiter && this.llm == llm && fresh(store)
      ensures store.docs == map[] && tasks == []
    {
      this.limiter := limiter;
      this.llm := llm;
      store := new Collection();
      tasks := [];
    }

    /** `generate_ui`: insert a pending record under the fresh id and schedule its
        processing; answer at once, without running it. */
    method GenerateUi(prompt: string, jobId: string, now: int) returns (resp: GenerateResponse)
      requires Valid() && jobId !in store.docs
      modifies this, store
      ensures Valid()
      ensures store.docs == old(store.docs)[jobId := NewJob(jobId, prompt, now)]
      ensures tasks == old(tasks) + [Task(jobId, prompt)]
      ensures resp == GenerateResponse(jobId, StatusValue(Pending), JobStartedMessage)
    {
      QueueAfterSubmit(store.docs, tasks, jobId, prompt, now);
      store.InsertOne(NewJob(jobId, prompt, now));
      tasks := tasks + [Task(jobId, prompt)];
      resp := GenerateResponse(jobId, "pending", JobStartedMessage);
    }

    /** `process_generation`: mark the record running, call the language model, write the
        outcome. `statusAtCall` is the record's status while the model is being called. */
    method ProcessGeneration(jobId: string, prompt: string, world: seq<Round>, startedAt: int, finishedAt: int)
      returns (ghost statusAtCall: Option<JobStatus>)
      requires |world| == MaxAttempts && llm.breaker.Valid() && store.Valid()
      modifies store, llm.breaker
      ensures llm.breaker.Valid() && store.Valid()
      ensures statusAtCall == if jobId in old(store.docs) then Some(Running) else None
      ensures var run := Protocol(llm.breaker.Cfg(), old(llm.breaker.Snapshot()), llm.KeyConfigured(), prompt, world);
        && llm.breaker.Snapshot() == run.breaker
        && store.docs == SettleIn(old(store.docs), jobId, run.result, startedAt, finishedAt)
    {
      ghost var run := Protocol(llm.breaker.Cfg(), llm.breaker.Snapshot(), llm.KeyConfigured(), prompt, world);
      ghost var before := store.docs;
      store.UpdateOne(jobId, MarkRunning(startedAt));
      statusAtCall := if jobId in store.docs then Some(store.docs[jobId].status) else None;
      var result := llm.GenerateUiCode(prompt, world);
      assert result == run.result;
      store.UpdateOne(jobId, Finish(result, finishedAt));
      TwoUpdates(before, jobId, result, startedAt, finishedAt);
    }

    /** Run the oldest scheduled task to its end; `ran` names its job. Records already
        terminal never change. */
    method RunNextTask(world: seq<Round>, startedAt: int, finishedAt: int) returns (ran: Option<string>)
      requires Valid() && |world| == MaxAttempts
      modifies this, store, llm.breaker
      ensures Valid()
      ensures old(tasks) == [] ==>
        && ran.None? && tasks == [] && store.docs == old(store.docs)
        && llm.breaker.Snapshot() == old(llm.breaker.Snapshot())
      ensures old(tasks) != [] ==>
        var t := old(tasks)[0];
        var run := Protocol(llm.breaker.Cfg(), old(llm.breaker.Snapshot()), llm.KeyConfigured(), t.prompt, world);
        && ran == Some(t.jobId)
        && tasks == old(tasks)[1..]
        && t.jobId in old(store.docs)
        && store.docs == SettleIn(old(store.docs), t.jobId, run.result, startedAt, finishedAt)
        && llm.breaker.Snapshot() == run.breaker
      ensures forall id :: id in old(store.docs) && Terminal(old(store.docs)[id].status) ==>
        id in store.docs && store.docs[id] == old(store.docs)[id]
    {
      if tasks == [] {
        return None;
      }
      var t := tasks[0];
      ghost var run := Protocol(llm.breaker.Cfg(), llm.breaker.Snapshot(), llm.KeyConfigured(), t.prompt, world);
      QueueAfterRun(store.docs, tasks, run.result, startedAt, finishedAt);
      tasks := tasks[1..];
      ghost var _ := ProcessGeneration(t.jobId, t.prompt, world, startedAt, finishedAt);
      ran := Some(t.jobId);
    }

    /** `get_job_status`: a read-only lookup; unknown ids answer 404. */
    function GetJobStatus(jobId: string): (r: Result<JobStatusResponse, HttpError>)
      reads store
      ensures r.Failure? <==> jobId !in store.docs
      ensures r.Failure? ==> r.error == HttpError(404, NotFoundDetail)
      ensures r.Success? ==> r.value == StatusView(jobId, store.docs[jobId])
    {
      match store.FindOne(jobId)
      case None => Failure(HttpError(404, NotFoundDetail))
      case Some(g) => Success(StatusView(jobId, g))
    }

    /** `get_history`: the default user's newest records, newest first, at most `limit`. */
    method GetHistory(limit: int) returns (history: seq<HistoryItem>)
      requires store.Valid()
      ensures IsRecentQuery(store.docs, DefaultUser, limit, ItemIds(history))
      ensures forall i :: 0 <= i < |history| ==>
        history[i].id in store.docs && history[i] == ToItem(store.docs[history[i].id])
    {
      var cursor := store.FindRecent(DefaultUser, limit);
      history := [];
      var i := 0;
      while i < |cursor|
        invariant 0 <= i <= |cursor|
        invariant |history| == i
        invariant forall j :: 0 <= j < i ==> history[j] == ToItem(cursor[j])
      {
        history := history + [ToItem(cursor[i])];
        i := i + 1;
      }
      SameIds(history, cursor);
    }

    /** `health_check`. */
    function HealthCheck(): (b: Body)
      reads llm.breaker
      ensures b.HealthBody? && b.status == "healthy"
      ensures b.llm.circuitBreaker == llm.breaker.GetState() && (b.llm.apiKeyConfigured <==> llm.KeyConfigured())
    {
      HealthBody("healthy", llm.GetHealthStatus())
    }

    /** The route handlers behind the middleware; `freshId` is the id a submission mints. */
    method Route(e: Endpoint, now: int, freshId: string) returns (resp: Response)
      requires Valid() && (e.Generate? ==> freshId !in store.docs)
      modifies this, store
      ensures Valid()
      ensures resp.headers == map[]
      ensures !e.Generate? ==> store.docs == old(store.docs) && tasks == old(tasks)
      ensures e.Generate? ==>
        && store.docs == old(store.docs)[freshId := NewJob(freshId, e.prompt, now)]
        && tasks == old(tasks) + [Task(freshId, e.prompt)]
        && resp == Response(200, GenerateBody(GenerateResponse(freshId, "pending", JobStartedMessage)), map[])
      ensures e.Root? ==> resp == Response(200, RootBody(ApiMessage, ApiVersion), map[])
      ensures e.JobStatus? ==> resp == JobStatusAnswer(store.docs, e.jobId)
      ensures e.Health? ==> resp == Response(200, HealthCheck(), map[])
      ensures e.History? ==>
        && resp.status == 200 && resp.body.HistoryBody?
        && IsRecentQuery(store.docs, DefaultUser, e.limit.GetOr(DefaultHistoryLimit), ItemIds(resp.body.history))
        && forall i :: 0 <= i < |resp.body.history| ==>
             var item := resp.body.history[i]; item.id in store.docs && item == ToItem(store.docs[item.id])
    {
      match e {
        case Root =>
          resp := Response(200, RootBody(ApiMessage, ApiVersion), map[]);
        case Health =>
          resp := Response(200, HealthCheck(), map[]);
        case Generate(prompt) =>
          var g := GenerateUi(prompt, freshId, now);
          resp := Response(200, GenerateBody(g), map[]);
        case JobStatus(jobId) =>
          match GetJobStatus(jobId) {
            case Success(v) => resp := Response(200, JobBody(v), map[]);
            case Failure(err) => resp := Response(err.status, ErrorBody(err.detail), map[]);
          }
        case History(limit) =>
          var items := GetHistory(limit.GetOr(DefaultHistoryLimit));
          resp := Response(200, HistoryBody(items), map[]);
      }
    }

    /** `rate_limit_middleware` around the routes: the health check passes untouched;
        every other path takes a slot of its client's window or is refused with 429 before
        its handler runs, and an admitted answer carries the slots left. */
    method Handle(req: Request, now: int, freshId: string) returns (resp: Response)
      requires Valid() && (req.endpoint.Generate? ==> freshId !in store.docs)
      modifies this, store, limiter
      ensures Valid()
      ensures PathOf(req.endpoint) == HealthPath ==>
        && limiter.requests == old(limiter.requests)
        && store.docs == old(store.docs) && tasks == old(tasks)
        && resp == Response(200, HealthCheck(), map[])
      ensures PathOf(req.endpoint) != HealthPath ==>
        var r := Check(old(limiter.requests), ClientKey(req.client), limiter.maxRequestsPerMinute,
                       DefaultWindowSeconds, now);
        && limiter.requests == r.1
        && (!r.0.allowed ==> resp == TooManyRequests && store.docs == old(store.docs) && tasks == old(tasks))
        && (r.0.allowed ==> r.0.remaining >= 0 && resp.headers == map[RemainingHeader := NatToString(r.0.remaining)])
        && (r.0.allowed && req.endpoint.Generate? ==>
              && store.docs == old(store.docs)[freshId := NewJob(freshId, req.endpoint.prompt, now)]
              && tasks == old(tasks) + [Task(freshId, req.endpoint.prompt)])
        && (r.0.allowed && !req.endpoint.Generate? ==> store.docs == old(store.docs) && tasks == old(tasks))
        && (r.0.allowed && req.endpoint.JobStatus? ==>
              && resp.status == JobStatusAnswer(store.docs, req.endpoint.jobId).status
              && resp.body == JobStatusAnswer(store.docs, req.endpoint.jobId).body)
    {
      if PathOf(req.endpoint) == HealthPath {
        resp := Route(req.endpoint, now, freshId);
        return;
      }
      var clientIp := ClientKey(req.client);
      var allowed, remaining := limiter.CheckRateLimit(clientIp, None, DefaultWindowSeconds, now);
      if !allowed {
        return TooManyRequests;
      }
      resp := Route(req.endpoint, now, freshId);
      resp := resp.(headers := resp.headers[RemainingHeader := NatToString(remaining)]);
    }
  }
}
