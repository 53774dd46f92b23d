# AI UI Generator — fault-tolerance and job lifecycle, in Dafny

The AI UI Generator backend takes a natural-language prompt. It creates a job record and answers
at once, then asks a language model for a React component in a background task. Clients poll the
job until it is `success` or `failed`. This project models the layer of that backend that holds
real logic, and proves properties of the model:

- **Circuit breaker** (`breaker.dfy`, module `Breaker`). This is the three-state machine that
  guards the language-model call:
  - closed, open, half-open;
  - a failure counter, a success counter and the time of the last failure;
  - a cooldown after which an open breaker lets callers through again.
  The class `CircuitBreaker` updates its fields in place. Each method is tied to a pure
  transition function (`OnSuccess`, `OnFailure`, `OnCanExecute`), and the lemmas are stated
  over those functions.
- **Sliding-window rate limiter** (`limiter.dfy`, module `Limiter`). For each identifier it
  keeps the times of the requests it admitted. A check first prunes the times that have left
  the window, then either denies, or admits and records the call. The class `RateLimiter`
  holds the table as a `map<string, seq<int>>`, proved against the function `Check`.
- **Language-model client** (`llm.dfy`, module `Llm`). It covers two things:
  - the clean-up of the model's reply (strip, drop the markdown fence lines, strip again);
  - the breaker and retry protocol around the upstream call: up to three attempts, each gated
    by the breaker, stopping at the first success, with the last error re-raised. An attempt
    the open breaker rejects records nothing. An admitted attempt records a failure, or a
    success, or (for a reply that cannot be read) a success and then a failure.
  The upstream call is an oracle. Each attempt is given its time and its outcome: a reply was
  read, a reply arrived but reading it raised, or the call raised.
- **Job store** (`store.dfy`, module `Store`). The `generations` collection is a map from job
  id to record:
  - `insert_one` inserts a record;
  - `update_one` applies a `$set` patch to one record;
  - `find_one` looks up a record;
  - the history query is find, then sort by `created_at` descending, then limit.
- **HTTP layer** (`server.dfy`, module `Server`):
  - `generate_ui` creates a pending record and schedules `process_generation`.
  - `process_generation` marks the record running, calls the model, and writes the terminal
    record.
  - The `BackgroundTasks` queue is modelled as a first-in, first-out task list.
  - `get_job_status` answers 404 for an unknown job.
  - `get_history` lists the default user's records.
  - The rate-limit middleware bypasses the health check. Any other path takes a slot of the
    client's window or gets status 429, and an admitted answer carries the remaining count.
  - The class invariant `App.Valid` (through `QueueInv`) states that every record is well
    formed and never left running, and that a record is pending exactly when its task is
    queued.
- `wrappers.dfy` holds `Option`, `Result`, and Python's `x or default` on integers.
  `text.dfy` holds the Python string operations the core uses over `seq<char>`: `strip` with
  Python's whitespace set, `split("\n")`, `"\n".join`, and `str(int)`.

Modelling choices that apply throughout:

- Time is an integer parameter `now`.
- Python truthiness is kept:
  - a `last_failure_time` of 0 counts as unset;
  - a `max_requests` or threshold of 0 falls back to the default;
  - an empty API key counts as not configured.
- Job ids are fresh keys supplied by the caller.
- `created_at` is an integer instant, which sorts like the ISO-8601 strings the source stores.

The code departs in a few places from the usual circuit-breaker and job-queue design. The
model follows the code in each case:

- In half-open, the breaker lets every caller through, as the comment at
  `backend/services/circuit_breaker.py:76` says ("allow request to test service"). It does not
  allow a single probe.
- Two successes in half-open are needed to close the breaker, not one, as the comment at
  `backend/services/circuit_breaker.py:41` says.
- An open-circuit rejection is an `LLMServiceError`, so tenacity retries it. The rejection is
  not surfaced at once (`backend/services/llm_service.py:15`, `:60`).
- An upstream that always fails records one breaker failure per attempt, not one net failure
  per call. While the breaker stays closed and below its threshold until the last attempt,
  that is three per call (`Llm.AlwaysRaising`, `Server.SubmitThenFail`). Once the breaker
  opens, later attempts made before its cooldown has passed are rejected without a record
  (`Llm.RejectedWhileOpen`). With a cooldown no longer than the waits between attempts, a
  later attempt goes through half-open and records a failure again.
- No prompt is validated as non-empty or length-bounded (`backend/server.py:161-192`).
- The rate limiter is applied to every path except `/api/health`, including job polling, and
  not only to submissions (`backend/server.py:85-107`).
- A reply with no component in it is returned as cleaned, possibly empty, code. It is not an
  upstream error.
- The health answer reports the breaker's state and whether a key is present. It does not
  report a rate-limiter flag.

## Model

| member | source | states |
|---|---|---|
| Breaker.CircuitBreaker.constructor | backend/services/circuit_breaker.py:22-35 | threshold and timeout are the argument, else the environment value, else 5 and 60 (0 falls back); a fresh breaker is closed with both counters 0 and no failure time, and satisfies the invariant |
| Breaker.OnSuccess | backend/services/circuit_breaker.py:37-46 | in open nothing changes; in closed the failure count resets; in half-open the success count rises and reaching 2 closes with both counters 0; the invariant (successes only in half-open and below 2, closed below threshold, open has a failure time) is preserved |
| Breaker.OnFailure | backend/services/circuit_breaker.py:48-61 | the count rises by exactly 1 and the failure time becomes `now` in every state; half-open and open end open; closed opens exactly when the new count reaches the threshold, with success count 0; otherwise state and successes unchanged; invariant preserved |
| Breaker.OnCanExecute | backend/services/circuit_breaker.py:63-77 | admits exactly when not open or the cooldown has passed since a (truthy) failure time; only in that open case does it move to half-open with success count 0; otherwise nothing changes |
| Breaker.ConsecutiveFailures | backend/services/circuit_breaker.py:48-61 | from closed, n failures raise the count by n and leave it open exactly when n > 0 and the count reached the threshold, holding the last failure's time |
| Breaker.FailuresKeepOpen | backend/services/circuit_breaker.py:53-61 | an open breaker stays open under any further failures, each one counted |
| Breaker.LastFailureTime | backend/services/circuit_breaker.py:50-51 | after a run of failures the failure time is that of the last one |
| Breaker.RecoveryAfterCooldown | backend/services/circuit_breaker.py:37-93 | after the cooldown an open breaker admits in half-open; one success stays half-open with count 1; a second closes it with both counters 0 |
| Breaker.CircuitBreaker.RecordSuccess | backend/services/circuit_breaker.py:37-46 | the fields become `OnSuccess` of the old fields; invariant kept |
| Breaker.CircuitBreaker.RecordFailure | backend/services/circuit_breaker.py:48-61 | the fields become `OnFailure` of the old fields at `now`; invariant kept |
| Breaker.CircuitBreaker.CanExecute | backend/services/circuit_breaker.py:63-77 | verdict and new fields are those of `OnCanExecute` |
| Breaker.CircuitBreaker.OpenCircuit | backend/services/circuit_breaker.py:79-82 | state open, success count 0, nothing else changes |
| Breaker.CircuitBreaker.CloseCircuit | backend/services/circuit_breaker.py:84-88 | state closed, both counters 0, failure time kept |
| Breaker.CircuitBreaker.HalfOpenCircuit | backend/services/circuit_breaker.py:90-93 | state half-open, success count 0, nothing else changes |
| Breaker.CircuitBreaker.GetState | backend/services/circuit_breaker.py:95-104 | read-only report of every field except the success count (which the source omits too), and its state string names exactly the current state |
| Limiter.Window | backend/services/rate_limiter.py:19 | the `defaultdict(list)` lookup: the stored list of a known identifier, the empty list for any other |
| Limiter.KeepAfter | backend/services/rate_limiter.py:30-36 | the kept times are exactly the stored times after the window start, never more of them |
| Limiter.KeepAfterCounts | backend/services/rate_limiter.py:34-36 | each time after the window start is kept as often as it was stored, every other time not at all |
| Limiter.KeepAfterConcat | backend/services/rate_limiter.py:34-36 | pruning keeps the stored order: pruning a concatenation is concatenating the prunings |
| Limiter.Admit | backend/services/rate_limiter.py:47-62 | denies exactly when the pruned count reached the limit, returning 0 and appending nothing; admits by appending `now` with `limit - count - 1` remaining, in `[0, limit)`; every stored time lies inside a positive window; a list within the limit stays within it |
| Limiter.Check | backend/services/rate_limiter.py:38-62 | only the checked identifier's list changes (a missing key reads as empty) and it then exists; its decision and list are those of `Admit` |
| Limiter.AdmitInside | backend/services/rate_limiter.py:51-62 | when no stored time has left the window, the call is admitted exactly when fewer than `limit` are stored |
| Limiter.BurstStored | backend/services/rate_limiter.py:53-59 | calls from one key within one window span leave exactly the first `limit` call times stored |
| Limiter.BurstVerdicts | backend/services/rate_limiter.py:53-62 | within one window span the call at position j is admitted exactly when j < limit (the 11th of 10 is denied) |
| Limiter.AdmitsAfterWindow | backend/services/rate_limiter.py:30-62 | once every stored time has left the window, the next call is admitted again with `limit - 1` remaining |
| Limiter.RateLimiter.constructor | backend/services/rate_limiter.py:17-19 | the limit is the environment value or 10, and the table is empty |
| Limiter.RateLimiter.Close | backend/services/rate_limiter.py:25-28 | every window is emptied |
| Limiter.RateLimiter.CleanOldRequests | backend/services/rate_limiter.py:30-36 | the identifier's list becomes its times after `now - window`, the rest unchanged |
| Limiter.RateLimiter.CheckRateLimit | backend/services/rate_limiter.py:38-62 | answer and new table are `Check` under the effective limit (`max_requests or` the configured maximum) |
| Limiter.RateLimiter.CheckOutboundRateLimit | backend/services/rate_limiter.py:64-73 | exactly `Check` of `"outbound:" + service` with limit 5 and window 1, projected to its verdict |
| Text.Strip | backend/services/llm_service.py:95 | the result has whitespace at neither end |
| Text.StripIsSlice | backend/services/llm_service.py:95 | the stripped text is a contiguous piece of the input, starting where `lstrip` does |
| Text.StripCutsSpace | backend/services/llm_service.py:95 | what strip removes on either side is all whitespace |
| Text.StripIdempotent | backend/services/llm_service.py:108 | stripping twice is stripping once |
| Text.SplitLines | backend/services/llm_service.py:99 | always at least one piece, none holding a newline |
| Text.JoinSplit | backend/services/llm_service.py:99-103 | joining the split lines gives back the text |
| Text.SplitJoin | backend/services/llm_service.py:99-103 | splitting newline-free lines after joining gives back the lines |
| Text.JoinLines | backend/services/llm_service.py:103 | joining no lines gives the empty text; otherwise the join starts with the first line and adds at least one character (the newline) per further line |
| Text.SplitAround | backend/services/llm_service.py:99 | splitting around one newline is the concatenation of the two splits |
| Text.NatToString | backend/server.py:106 | `str(n)` is a nonempty string of decimal digits |
| Text.ParseNatToString | backend/server.py:106 | the decimal string reads back as the same number |
| Llm.DropClosingFence | backend/services/llm_service.py:101-102 | the result is the lines or the lines without the last one, and it is shorter exactly when there is a last line and it strips to a bare fence |
| Llm.CleanCode | backend/services/llm_service.py:95-108 | the cleaned code has whitespace at neither end |
| Llm.CleanUnfenced | backend/services/llm_service.py:95-108 | a reply not opening with a fence is only stripped |
| Llm.CleanBareFence | backend/services/llm_service.py:98-103 | a bare fence cleans to the empty string |
| Llm.CleanFenced | backend/services/llm_service.py:98-108 | an opening fence line with a tag, a body and a closing fence line clean to the stripped body |
| Llm.RunAttempt | backend/services/llm_service.py:63-116 | rejected while open with no call and no record; without a key one failure and no call; a read reply records one success and returns cleaned code and the explanation; a raising call fails with the prefixed error and records one failure on the admitted breaker; a reply that cannot be read fails with the prefixed error after recording a success, then a failure; invariant kept |
| Llm.Protocol | backend/services/llm_service.py:57-116 | at least one and at most as many attempts as rounds; calls, failures and successes bounded by attempts; no key means no call and a failure; invariant kept |
| Llm.ProtocolOutcome | backend/services/llm_service.py:57-116 | derived from the two lemmas below, in terms of the rounds: a failure uses every attempt and carries an error the last round can raise; a success comes from a round whose reply was read and returns it cleaned with the explanation |
| Llm.After | backend/services/llm_service.py:57-116 | the breaker after a run of attempts; no attempts leave it as it was, and the invariant is kept |
| Llm.AfterSnoc | backend/services/llm_service.py:57-116 | the breaker after one more round is that round's attempt on the breaker the earlier rounds left |
| Llm.ProtocolFailsAsLastRound | backend/services/llm_service.py:57-116 | a failed call makes every attempt, re-raises exactly the last attempt's error and leaves the breaker as that attempt did, that attempt starting from the breaker the earlier attempts left |
| Llm.ProtocolFailureUsesEveryRound | backend/services/llm_service.py:57-61 | a failed call made an attempt for every round: only a success stops the retries early |
| Llm.ProtocolEndsAsLastRound | backend/services/llm_service.py:57-116 | a call that used every round returns exactly its last attempt's result and leaves the breaker as that attempt did, on the breaker the earlier attempts left |
| Llm.ProtocolUsesPrefix | backend/services/llm_service.py:57-61 | the rounds after the attempt a call stops at play no part: the call over just the rounds it used is the same call |
| Llm.AttemptAt | backend/services/llm_service.py:57-116 | the attempt on round i runs on the breaker the earlier rounds left; round 0 runs on the initial breaker |
| Llm.AttemptAtShift | backend/services/llm_service.py:57-116 | round i of a world is round i - 1 of its tail, started on the breaker the first attempt left |
| Llm.ProtocolSucceedsAsLastRound | backend/services/llm_service.py:57-116 | a successful call returns exactly its last attempt's result and leaves the breaker as that attempt did (for a read reply: one success recorded on the admitted breaker) |
| Llm.ProtocolStopsAtFirstSuccess | backend/services/llm_service.py:57-61 | every attempt before a call's last one failed, so a call stops at its first success |
| Llm.RejectedWhileOpen | backend/services/llm_service.py:57-74 | while the breaker stays open and cooling down, every attempt is rejected with the unavailable message, the breaker is unchanged and nothing is called or recorded |
| Llm.AlwaysRaising | backend/services/llm_service.py:57-116 | an always-raising upstream under a closed breaker that stays below threshold until the last attempt makes every attempt call and record one failure, ends open exactly when the last failure reaches the threshold, and re-raises the last error |
| Llm.FirstAttemptSucceeds | backend/services/llm_service.py:82-110 | a read first reply through a closed breaker returns on attempt 1 with cleaned code and resets the failure count |
| Llm.LlmService.constructor | backend/services/llm_service.py:31-36 | keeps the key and the shared breaker |
| Llm.LlmService.AttemptOnce | backend/services/llm_service.py:63-116 | result and breaker fields are those of `RunAttempt` |
| Llm.LlmService.GenerateUiCode | backend/services/llm_service.py:57-116 | the retry loop's result and breaker fields are those of `Protocol` over the three rounds |
| Llm.LlmService.GetHealthStatus | backend/services/llm_service.py:118-124 | a read-only projection: service "llm", the breaker's `GetState`, and key configured iff a nonempty key exists |
| Store.Apply | backend/server.py:115-144 | a `$set` patch changes status, the named fields and `updated_at`, and nothing else |
| Store.Collection.InsertOne | backend/server.py:181 | the table gains exactly the new record |
| Store.Collection.UpdateOne | backend/server.py:115-118 | the matching record is patched; a missing id changes nothing |
| Store.Collection.FindOne | backend/server.py:197-200 | a lookup: finds a record exactly when the id is present, and returns it |
| Store.Collection.Newest | backend/server.py:221 | the chosen key has the greatest `created_at` of the set |
| Store.Collection.SelectRecent | backend/server.py:218-221 | distinct records of the user, newest first, as many as the limit allows (a limit of 0 means no limit, a negative limit counts as its absolute value), none left out newer |
| Store.Collection.FindRecent | backend/server.py:218-221 | the cursor holds exactly those records, as stored |
| Server.ClientKey | backend/server.py:90 | the client's host when the transport gives one, else "unknown" |
| Server.PathOf | backend/server.py:87-88 | only the health route has the health path |
| Server.NewJob | backend/server.py:167-180 | a pending, well-formed record of the default user with no results |
| Server.Finish | backend/server.py:124-144 | the patch for an outcome, used by `Settle`: success writes the code and explanation, any error its message |
| Server.Settle | backend/server.py:109-144 | the processed record is terminal, succeeded iff the model succeeded, with the model's code and explanation or its error, identity fields kept; a well-formed unfinished record stays well formed |
| Server.SettleIn | backend/server.py:115-144 | only the processed record changes, and only when it exists |
| Server.TwoUpdates | backend/server.py:115-144 | the running write followed by the outcome write is the settled table |
| Server.StatusView | backend/server.py:205-213 | the status answer copies id, prompt, creation time and the three result fields, and its status string identifies the record's state |
| Server.JobStatusAnswer | backend/server.py:194-213 | 200 with the record's status view exactly for a known id, 404 "Job not found" exactly for an unknown one |
| Server.ToItem | backend/server.py:225-231 | a history item copies id, prompt, code and creation time, and its status string identifies the record's state |
| Server.PollShowsOneOutcome | backend/server.py:205-213 | a polled well-formed record shows code and explanation iff "success" and an error iff "failed", never both |
| Server.SubmitThenSucceed | backend/server.py:109-133 | a submission processed with a read first reply ends "success" with the cleaned reply and no error |
| Server.SubmitThenFail | backend/server.py:135-144 | a submission processed against an always-raising upstream ends "failed" with the last error's message, after three breaker failures |
| Server.QueueAfterSubmit | backend/server.py:181-184 | a submission keeps the queue and the table in agreement |
| Server.QueueAfterRun | backend/server.py:109-144 | running the oldest task keeps them in agreement: its record becomes terminal and leaves the queue |
| Server.App.GenerateUi | backend/server.py:161-192 | inserts the pending record, schedules its task without running it, answers pending with the started message |
| Server.App.ProcessGeneration | backend/server.py:109-144 | the record is running while the model is called; the table becomes `SettleIn` of the protocol's result and the breaker its state |
| Server.App.RunNextTask | backend/server.py:184 | runs the oldest queued task to its end; terminal records never change; the invariant holds |
| Server.App.GetJobStatus | backend/server.py:194-213 | 404 "Job not found" exactly for an unknown id, otherwise the record's projection |
| Server.App.HealthCheck | backend/server.py:150-159 | "healthy", with the breaker's report and whether a nonempty key is configured |
| Server.App.GetHistory | backend/server.py:215-233 | the items are the default user's newest records, newest first, at most `limit`, each projected from its record |
| Server.App.Route | backend/server.py:146-233 | only a submission changes the table or queue (the pending record and its task at the end of the queue); the root, health, submission and status answers exactly; history items that are the newest records of the default user, each the projection of its record |
| Server.App.Handle | backend/server.py:85-107 | health bypasses the limiter, takes no slot and changes nothing; otherwise the client's window is checked; a denial answers 429 with retry-after 60 and runs nothing; an admission carries the remaining count, a submission inserts its record and queues its task last, any other route leaves table and queue unchanged, and a job lookup answers its status view or 404 |

## Left out

- I/O, logging, the OpenAI client call and its parameters, and the system prompt are not
  modelled. Each upstream call is an oracle outcome.
- Reading environment variables and `int()` parsing are not modelled. The constructors take
  the already parsed values as optional integers, so a parse error is not covered.
- Wall-clock reads become an integer `now`. The reads inside one call are treated as one
  instant: `time.time()` at lines 32 and 48 of `rate_limiter.py`, and the two
  `datetime.now()` calls of a record. Within one attempt, the clock read of `can_execute`
  (`backend/services/circuit_breaker.py:70`) and that of `record_failure`
  (`backend/services/circuit_breaker.py:51`) are the same `round.now`, so the upstream call
  has no duration.
- Tenacity's exponential waits are not modelled. Only the attempt bound of 3 is kept.
- Concurrency is not modelled. Handlers and background tasks run one after another, in the
  order given.
- The request-id middleware and its header are not modelled, nor are CORS, pydantic
  validation, `uuid4` (ids are fresh keys supplied by the caller), `init_db` and the
  database's indexes. `backend/database.py` is not part of this model beyond the collection
  as a map.
- `rate_limiter.connect` is not modelled, because it only logs.
- The lifespan hook's call of `close` is covered by `Limiter.RateLimiter.Close` itself.
- Paths without a route are not modelled.
- The health answer's `services` nesting is flattened to one field.
- Records that did not come from `generate_ui` are not modelled. The app starts from an empty
  collection.
- backend_test.py is not part of this model, because it drives a deployed server.
- Server.App.Handle: for an admitted request other than a job lookup it does not restate the
  route's answer body. `Route` states those bodies.
- Server.App.ProcessGeneration: an exception raised by its own store writes is not modelled.
  Only language-model errors lead to "failed".
