/** The language-model client (backend/services/llm_service.py): the clean-up of the
    model's reply, and the circuit-breaker and retry protocol around the one upstream call.
    The upstream call is an oracle: each attempt is given the time it runs at and what the
    call does. */
module Llm {
  import opened Wrappers
  import opened Text
  import opened Breaker

  /** `stop_after_attempt(3)`. */
  const MaxAttempts: nat := 3
  const Fence: string := "```"
  const ExplanationPrefix: string := "Generated React component based on: "
  const CircuitOpenMessage: string := "LLM service is temporarily unavailable. Please try again later."
  const NoKeyMessage: string := "OpenAI API key not configured"
  const FailurePrefix: string := "Failed to generate UI code: "

  /** Drops the last line when its stripped form is a bare fence. */
  function DropClosingFence(lines: seq<string>): (r: seq<string>)
    ensures r <= lines && |lines| - 1 <= |r|
    ensures |r| < |lines| <==> |lines| > 0 && Strip(lines[|lines| - 1]) == Fence
  {
    if |lines| > 0 && Strip(lines[|lines| - 1]) == Fence then lines[..|lines| - 1] else lines
  }

  /** The reply clean-up: strip; if it then opens with a fence, drop the first line and a
      closing-fence last line, and join the rest; strip again. */
  function CleanCode(content: string): (code: string)
    ensures code == [] || (!IsSpace(code[0]) && !IsSpace(code[|code| - 1]))
  {
    var code := Strip(content);
    var code' := if StartsWith(code, Fence) then JoinLines(DropClosingFence(SplitLines(code)[1..])) else code;
    Strip(code')
  }

  /** A reply that does not open with a fence is only stripped. */
  lemma CleanUnfenced(content: string)
    requires !StartsWith(Strip(content), Fence)
    ensures CleanCode(content) == Strip(content)
  {
    StripIdempotent(content);
  }

  /** A bare fence cleans to the empty string. */
  lemma CleanBareFence()
    ensures CleanCode(Fence) == ""
  {
    StripUnpadded(Fence);
    SplitNoNewline(Fence);
  }

  /** A fenced reply, an opening fence line with a language tag and a closing fence line
      around a body, cleans to the stripped body. */
  lemma CleanFenced(tag: string, body: string)
    requires '\n' !in tag
    ensures CleanCode(Fence + tag + "\n" + body + "\n" + Fence) == Strip(body)
  {
    var content := Fence + tag + "\n" + body + "\n" + Fence;
    FencedEdges(content, tag + "\n" + body + "\n");
    StripUnpadded(content);
    FencedLines(tag, body);
    var lines := SplitLines(content)[1..];
    assert lines == SplitLines(body) + [Fence];
    DropFence(SplitLines(body));
    JoinSplit(body);
  }

  /** Text between two fences starts with a fence and has no whitespace at either end. */
  lemma FencedEdges(content: string, inner: string)
    requires content == Fence + inner + Fence
    ensures StartsWith(content, Fence)
    ensures content != [] && !IsSpace(content[0]) && !IsSpace(content[|content| - 1])
  {
    assert content[..|Fence|] == Fence;
    assert content[0] == '`';
    assert content[|content| - 1] == Fence[2];
  }

  /** A closing fence line is dropped. */
  lemma DropFence(lines: seq<string>)
    ensures DropClosingFence(lines + [Fence]) == lines
  {
    StripUnpadded(Fence);
    assert (lines + [Fence])[..|lines|] == lines;
  }

  /** The lines of a fenced reply: the opening line, the body's lines, the closing fence. */
  lemma FencedLines(tag: string, body: string)
    requires '\n' !in tag
    ensures SplitLines(Fence + tag + "\n" + body + "\n" + Fence) == [Fence + tag] + SplitLines(body) + [Fence]
  {
    assert '\n' !in Fence + tag by {
      forall i | 0 <= i < |Fence + tag| ensures (Fence + tag)[i] != '\n' {
        if i >= |Fence| { assert (Fence + tag)[i] == tag[i - |Fence|]; }
      }
    }
    assert Fence + tag + "\n" + body + "\n" + Fence == (Fence + tag) + "\n" + (body + "\n" + Fence);
    SplitAround(Fence + tag, body + "\n" + Fence);
    SplitNoNewline(Fence + tag);
    SplitAround(body, Fence);
    SplitNoNewline(Fence);
  }

  /** What the upstream call does in one attempt. */
  datatype Upstream =
    | Replied(content: string)    // the call returned and its message content was read
    | Unreadable(error: string)   // the call returned, but reading its content raised
    | Raised(error: string)       // the call itself raised

  /** One attempt as the world runs it: the time its clock reads see, and the upstream call. */
  datatype Round = Round(now: int, upstream: Upstream)

  /** The dictionary `generate_ui_code` returns. */
  datatype Generated = Generated(code: string, explanation: string)

  /** One attempt's result and its effect on the breaker: whether the upstream call was made,
      how many failures and successes it recorded. */
  datatype AttemptEffect = AttemptEffect(
    result: Result<Generated, string>, breaker: Counters, called: bool, failures: nat, successes: nat)

  /** One run of the undecorated body of `generate_ui_code`. */
  function RunAttempt(cfg: Config, c: Counters, keyConfigured: bool, prompt: string, round: Round)
    : (e: AttemptEffect)
    ensures var (ok, c1) := OnCanExecute(cfg, c, round.now);
      && (!ok ==> e == AttemptEffect(Failure(CircuitOpenMessage), c, false, 0, 0))
      && (ok ==> (e.called <==> keyConfigured))
      && (ok && !keyConfigured ==>
            e.result == Failure(FailurePrefix + NoKeyMessage) && e.breaker == OnFailure(cfg, c1, round.now))
      && (ok && e.called ==> e.successes == (if round.upstream.Raised? then 0 else 1))
      && (ok && e.result.Failure? ==> e.failures == 1 && e.breaker.lastFailureTime == Some(round.now))
      && (ok && keyConfigured && round.upstream.Raised? ==>
            e.result == Failure(FailurePrefix + round.upstream.error) && e.breaker == OnFailure(cfg, c1, round.now))
      && (ok && keyConfigured && round.upstream.Unreadable? ==>
            && e.result == Failure(FailurePrefix + round.upstream.error)
            && e.breaker == OnFailure(cfg, OnSuccess(c1), round.now))
    ensures e.result.Success? <==> OnCanExecute(cfg, c, round.now).0 && keyConfigured && round.upstream.Replied?
    ensures e.result.Success? ==>
      && e.result.value == Generated(CleanCode(round.upstream.content), ExplanationPrefix + prompt)
      && e.failures == 0 && e.successes == 1
      && e.breaker == OnSuccess(OnCanExecute(cfg, c, round.now).1)
    ensures e.result.Failure? && round.upstream.Replied? ==>
      e.result.error in {CircuitOpenMessage, FailurePrefix + NoKeyMessage}
    ensures e.result.Failure? && !round.upstream.Replied? ==>
      e.result.error in {CircuitOpenMessage, FailurePrefix + NoKeyMessage, FailurePrefix + round.upstream.error}
    ensures Inv(cfg, c) ==> Inv(cfg, e.breaker)
  {
    var (ok, c1) := OnCanExecute(cfg, c, round.now);
    if !ok then AttemptEffect(Failure(CircuitOpenMessage), c1, false, 0, 0)
    else if !keyConfigured then
      AttemptEffect(Failure(FailurePrefix + NoKeyMessage), OnFailure(cfg, c1, round.now), false, 1, 0)
    else
      match round.upstream
      case Replied(content) =>
        AttemptEffect(Success(Generated(CleanCode(content), ExplanationPrefix + prompt)), OnSuccess(c1), true, 0, 1)
      case Unreadable(error) =>
        AttemptEffect(Failure(FailurePrefix + error), OnFailure(cfg, OnSuccess(c1), round.now), true, 1, 1)
      case Raised(error) =>
        AttemptEffect(Failure(FailurePrefix + error), OnFailure(cfg, c1, round.now), true, 1, 0)
  }

  /** A whole call of the decorated `generate_ui_code`: what it returns, the breaker
      afterwards, and how many attempts, upstream calls, failures and successes it made. */
  datatype Run = Run(
    result: Result<Generated, string>, breaker: Counters,
    attempts: nat, calls: nat, failures: nat, successes: nat)

  /** The errors an attempt can end with, given what its upstream call does. */
  function AttemptErrors(u: Upstream): set<string>
  {
    {CircuitOpenMessage, FailurePrefix + NoKeyMessage} + if u.Replied? then {} else {FailurePrefix + u.error}
  }

  /** The retry decorator over the rounds `world`: every failure is an `LLMServiceError`
      (the open-circuit error is one too), so an attempt is retried until one succeeds or
      the rounds run out, and the last error is re-raised. */
  function Protocol(cfg: Config, c: Counters, keyConfigured: bool, prompt: string, world: seq<Round>)
    : (p: Run)
    requires |world| >= 1
    ensures 1 <= p.attempts <= |world|
    ensures p.calls <= p.attempts && p.failures <= p.attempts && p.successes <= p.attempts
    ensures !keyConfigured ==> p.calls == 0 && p.result.Failure?
    ensures Inv(cfg, c) ==> Inv(cfg, p.breaker)
    decreases |world|
  {
    var e := RunAttempt(cfg, c, keyConfigured, prompt, world[0]);
    if e.result.Success? || |world| == 1 then
      Run(e.result, e.breaker, 1, if e.called then 1 else 0, e.failures, e.successes)
    else
      var rest := Protocol(cfg, e.breaker, keyConfigured, prompt, world[1..]);
      Run(rest.result, rest.breaker, rest.attempts + 1, rest.calls + (if e.called then 1 else 0),
          rest.failures + e.failures, rest.successes + e.successes)
  }

  /** The outcome in terms of the rounds alone, as a consequence of `ProtocolFailsAsLastRound`
      and `ProtocolSucceedsAsLastRound`: the call fails only after using every round, with
      one of the errors the last round can raise; it succeeds only on a round whose reply
      was read, returning that reply cleaned and the explanation. */
  lemma {:induction false} ProtocolOutcome(cfg: Config, c: Counters, keyConfigured: bool, prompt: string,
                                           world: seq<Round>)
    requires |world| >= 1
    ensures var p := Protocol(cfg, c, keyConfigured, prompt, world);
      && (p.result.Failure? ==>
            p.attempts == |world| && p.result.error in AttemptErrors(world[|world| - 1].upstream))
      && (p.result.Success? ==>
            && world[p.attempts - 1].upstream.Replied?
            && p.result.value == Generated(CleanCode(world[p.attempts - 1].upstream.content), ExplanationPrefix + prompt))
  {
    var p := Protocol(cfg, c, keyConfigured, prompt, world);
    if p.result.Failure? {
      ProtocolFailsAsLastRound(cfg, c, keyConfigured, prompt, world);
      var last := RunAttempt(cfg, After(cfg, c, keyConfigured, prompt, world[..|world| - 1]),
                             keyConfigured, prompt, world[|world| - 1]);
      assert p.result == last.result;
    } else {
      ProtocolSucceedsAsLastRound(cfg, c, keyConfigured, prompt, world);
      var k := p.attempts - 1;
      var hit := RunAttempt(cfg, After(cfg, c, keyConfigured, prompt, world[..k]), keyConfigured, prompt, world[k]);
      assert hit == AttemptAt(cfg, c, keyConfigured, prompt, world, k);
      assert p.result == hit.result;
    }
  }

  /** The breaker after attempting each of `rounds` in turn. */
  function After(cfg: Config, c: Counters, keyConfigured: bool, prompt: string, rounds: seq<Round>): (d: Counters)
    ensures |rounds| == 0 ==> d == c
    ensures Inv(cfg, c) ==> Inv(cfg, d)
    decreases |rounds|
  {
    if |rounds| == 0 then c
    else After(cfg, RunAttempt(cfg, c, keyConfigured, prompt, rounds[0]).breaker, keyConfigured, prompt, rounds[1..])
  }

  /** Folding the breaker over one more round is one more attempt at the end. */
  lemma {:induction false} AfterSnoc(cfg: Config, c: Counters, keyConfigured: bool, prompt: string,
                                     rounds: seq<Round>, r: Round)
    ensures After(cfg, c, keyConfigured, prompt, rounds + [r])
         == RunAttempt(cfg, After(cfg, c, keyConfigured, prompt, rounds), keyConfigured, prompt, r).breaker
    decreases |rounds|
  {
    if |rounds| == 0 {
      assert (rounds + [r])[1..] == [];
    } else {
      assert (rounds + [r])[1..] == rounds[1..] + [r];
      AfterSnoc(cfg, RunAttempt(cfg, c, keyConfigured, prompt, rounds[0]).breaker, keyConfigured, prompt, rounds[1..], r);
    }
  }

  /** A failed call uses every round: only a success stops the retries early. */
  lemma {:induction false} ProtocolFailureUsesEveryRound(cfg: Config, c: Counters, keyConfigured: bool,
                                                         prompt: string, world: seq<Round>)
    requires |world| >= 1
    ensures var p := Protocol(cfg, c, keyConfigured, prompt, world);
      p.result.Failure? ==> p.attempts == |world|
    decreases |world|
  {
    var e := RunAttempt(cfg, c, keyConfigured, prompt, world[0]);
    if !(e.result.Success? || |world| == 1) {
      ProtocolFailureUsesEveryRound(cfg, e.breaker, keyConfigured, prompt, world[1..]);
    }
  }

  /** A call that uses every round, failed or not, returns exactly what the last attempt
      returned and leaves the breaker as that attempt left it, starting from the breaker
      the earlier failed attempts built. */
  lemma {:induction false} ProtocolEndsAsLastRound(cfg: Config, c: Counters, keyConfigured: bool, prompt: string,
                                                   world: seq<Round>)
    requires |world| >= 1
    ensures var p := Protocol(cfg, c, keyConfigured, prompt, world);
      var last := RunAttempt(cfg, After(cfg, c, keyConfigured, prompt, world[..|world| - 1]),
                             keyConfigured, prompt, world[|world| - 1]);
      p.attempts == |world| ==> p.result == last.result && p.breaker == last.breaker
    decreases |world|
  {
    var e := RunAttempt(cfg, c, keyConfigured, prompt, world[0]);
    if |world| == 1 {
      assert world[..0] == [];
    } else if !e.result.Success? {
      var tail := world[1..];
      ProtocolEndsAsLastRound(cfg, e.breaker, keyConfigured, prompt, tail);
      assert world[..|world| - 1][1..] == tail[..|tail| - 1];
      assert tail[|tail| - 1] == world[|world| - 1];
    }
  }

  /** A failed call re-raises exactly what the last attempt raised, after using every round,
      and leaves the breaker as that attempt left it, starting from the breaker the earlier
      failed attempts built. */
  lemma ProtocolFailsAsLastRound(cfg: Config, c: Counters, keyConfigured: bool, prompt: string,
                                 world: seq<Round>)
    requires |world| >= 1
    ensures var p := Protocol(cfg, c, keyConfigured, prompt, world);
      var last := RunAttempt(cfg, After(cfg, c, keyConfigured, prompt, world[..|world| - 1]),
                             keyConfigured, prompt, world[|world| - 1]);
      p.result.Failure? ==> p.attempts == |world| && p.result == last.result && p.breaker == last.breaker
  {
    ProtocolFailureUsesEveryRound(cfg, c, keyConfigured, prompt, world);
    ProtocolEndsAsLastRound(cfg, c, keyConfigured, prompt, world);
  }

  /** The attempt made on round `i`, on the breaker the rounds before it left. */
  function AttemptAt(cfg: Config, c: Counters, keyConfigured: bool, prompt: string, world: seq<Round>, i: nat)
    : (e: AttemptEffect)
    requires i < |world|
    ensures i == 0 ==> e == RunAttempt(cfg, c, keyConfigured, prompt, world[0])
  {
    assert i == 0 ==> world[..i] == [];
    RunAttempt(cfg, After(cfg, c, keyConfigured, prompt, world[..i]), keyConfigured, prompt, world[i])
  }

  /** Round `i` of a world is round `i - 1` of its tail, started on the breaker the first
      attempt left. */
  lemma AttemptAtShift(cfg: Config, c: Counters, keyConfigured: bool, prompt: string, world: seq<Round>, i: nat)
    requires 0 < i < |world|
    ensures AttemptAt(cfg, c, keyConfigured, prompt, world, i)
         == AttemptAt(cfg, RunAttempt(cfg, c, keyConfigured, prompt, world[0]).breaker, keyConfigured, prompt,
                      world[1..], i - 1)
  {
    assert world[..i][1..] == world[1..][..i - 1];
  }

  /** The rounds after the attempt a call stops at play no part: the call over the rounds
      it used is the same call. */
  lemma {:induction false} ProtocolUsesPrefix(cfg: Config, c: Counters, keyConfigured: bool, prompt: string,
                                              world: seq<Round>)
    requires |world| >= 1
    ensures var p := Protocol(cfg, c, keyConfigured, prompt, world);
      Protocol(cfg, c, keyConfigured, prompt, world[..p.attempts]) == p
    decreases |world|
  {
    var p := Protocol(cfg, c, keyConfigured, prompt, world);
    var e := RunAttempt(cfg, c, keyConfigured, prompt, world[0]);
    if e.result.Success? || |world| == 1 {
      assert world[..1][0] == world[0];
    } else {
      var tail := world[1..];
      var rest := Protocol(cfg, e.breaker, keyConfigured, prompt, tail);
      ProtocolUsesPrefix(cfg, e.breaker, keyConfigured, prompt, tail);
      var used := world[..p.attempts];
      assert p.attempts == rest.attempts + 1 && |used| > 1;
      assert used[1..] == tail[..rest.attempts];
      assert used[0] == world[0];
      assert Protocol(cfg, c, keyConfigured, prompt, used).attempts == p.attempts;
    }
  }

  /** A successful call returns what its last attempt returned and leaves the breaker as
      that attempt left it, starting from the breaker the earlier attempts built. */
  lemma ProtocolSucceedsAsLastRound(cfg: Config, c: Counters, keyConfigured: bool, prompt: string,
                                    world: seq<Round>)
    requires |world| >= 1
    ensures var p := Protocol(cfg, c, keyConfigured, prompt, world);
      var hit := AttemptAt(cfg, c, keyConfigured, prompt, world, p.attempts - 1);
      p.result.Success? ==> p.result == hit.result && p.breaker == hit.breaker
  {
    var p := Protocol(cfg, c, keyConfigured, prompt, world);
    var used := world[..p.attempts];
    ProtocolUsesPrefix(cfg, c, keyConfigured, prompt, world);
    ProtocolEndsAsLastRound(cfg, c, keyConfigured, prompt, used);
    assert used[..|used| - 1] == world[..p.attempts - 1];
    assert used[|used| - 1] == world[p.attempts - 1];
  }

  /** A call stops at the first attempt that succeeds: every attempt before its last one
      failed. */
  lemma {:induction false} ProtocolStopsAtFirstSuccess(cfg: Config, c: Counters, keyConfigured: bool, prompt: string,
                                                       world: seq<Round>)
    requires |world| >= 1
    ensures var p := Protocol(cfg, c, keyConfigured, prompt, world);
      forall i :: 0 <= i < p.attempts - 1 ==> AttemptAt(cfg, c, keyConfigured, prompt, world, i).result.Failure?
    decreases |world|
  {
    var p := Protocol(cfg, c, keyConfigured, prompt, world);
    var e := RunAttempt(cfg, c, keyConfigured, prompt, world[0]);
    if !(e.result.Success? || |world| == 1) {
      ProtocolStopsAtFirstSuccess(cfg, e.breaker, keyConfigured, prompt, world[1..]);
      forall i | 0 < i < p.attempts - 1
        ensures AttemptAt(cfg, c, keyConfigured, prompt, world, i).result.Failure?
      {
        AttemptAtShift(cfg, c, keyConfigured, prompt, world, i);
      }
    }
  }

  /** While the breaker is open and its cooldown has not passed at any attempt, a call
      makes every attempt, is rejected each time with the open-circuit error, and calls
      nothing, records nothing and leaves the breaker as it was. */
  lemma {:induction false} RejectedWhileOpen(cfg: Config, c: Counters, keyConfigured: bool, prompt: string,
                                             world: seq<Round>)
    requires |world| >= 1 && c.state == Open
    requires forall i :: 0 <= i < |world| ==> !TimeoutElapsed(cfg, c, world[i].now)
    ensures Protocol(cfg, c, keyConfigured, prompt, world)
      == Run(Failure(CircuitOpenMessage), c, |world|, 0, 0, 0)
    decreases |world|
  {
    if |world| > 1 {
      RejectedWhileOpen(cfg, c, keyConfigured, prompt, world[1..]);
    }
  }

  /** With an upstream that always raises and a closed breaker that stays below its
      threshold until the last attempt, every attempt calls upstream and records one
      failure: the call records as many breaker failures as it has attempts (three), ends
      open exactly when the last failure reached the threshold, and re-raises the last error. */
  lemma {:induction false} AlwaysRaising(cfg: Config, c: Counters, prompt: string, world: seq<Round>)
    requires |world| >= 1 && c.state == Closed
    requires c.failureCount + |world| - 1 < cfg.failureThreshold
    requires forall i :: 0 <= i < |world| ==> world[i].upstream.Raised?
    ensures var p := Protocol(cfg, c, true, prompt, world);
      && p.result == Failure(FailurePrefix + world[|world| - 1].upstream.error)
      && p.attempts == |world| && p.calls == |world| && p.failures == |world| && p.successes == 0
      && p.breaker.state == (if c.failureCount + |world| < cfg.failureThreshold then Closed else Open)
      && p.breaker.failureCount == c.failureCount + |world|
    decreases |world|
  {
    if |world| > 1 {
      var e := RunAttempt(cfg, c, true, prompt, world[0]);
      assert world[1..][|world[1..]| - 1] == world[|world| - 1];
      AlwaysRaising(cfg, e.breaker, prompt, world[1..]);
    }
  }

  /** A first attempt through a closed breaker whose reply is read returns the cleaned code
      and the explanation, and resets the failure count. */
  lemma FirstAttemptSucceeds(cfg: Config, c: Counters, prompt: string, world: seq<Round>)
    requires |world| >= 1 && c.state == Closed && world[0].upstream.Replied?
    ensures var p := Protocol(cfg, c, true, prompt, world);
      && p.result == Success(Generated(CleanCode(world[0].upstream.content), ExplanationPrefix + prompt))
      && p.attempts == 1 && p.calls == 1 && p.failures == 0
      && p.breaker == c.(failureCount := 0)
  {
  }

  /** What `get_health_status` reports. */
  datatype HealthStatus = HealthStatus(service: string, circuitBreaker: StateReport, apiKeyConfigured: bool)

  class LlmService {
    /** OPENAI_API_KEY. */
    const apiKey: Option<string>
    /** The process-wide `llm_circuit_breaker`. */
    const breaker: CircuitBreaker

    /** `bool(self.api_key)`; the client exists exactly when this holds. */
    predicate KeyConfigured()
    {
      apiKey.Some? && apiKey.value != ""
    }

    constructor (apiKey: Option<string>, breaker: CircuitBreaker)
      ensures this.apiKey == apiKey && this.breaker == breaker
    {
      this.apiKey := apiKey;
      this.breaker := breaker;
    }

    /** One attempt: the body of `generate_ui_code` without its retry decorator. */
    method AttemptOnce(prompt: string, round: Round) returns (r: Result<Generated, string>)
      requires breaker.Valid()
      modifies breaker
      ensures breaker.Valid()
      ensures var e := RunAttempt(breaker.Cfg(), old(breaker.Snapshot()), KeyConfigured(), prompt, round);
        r == e.result && breaker.Snapshot() == e.breaker
    {
      var ok := breaker.CanExecute(round.now);
      if !ok {
        return Failure(CircuitOpenMessage);
      }
      if !KeyConfigured() {
        breaker.RecordFailure(round.now);
        return Failure(FailurePrefix + NoKeyMessage);
      }
      match round.upstream {
        case Raised(error) =>
          breaker.RecordFailure(round.now);
          r := Failure(FailurePrefix + error);
        case Unreadable(error) =>
          breaker.RecordSuccess();
          breaker.RecordFailure(round.now);
          r := Failure(FailurePrefix + error);
        case Replied(content) =>
          breaker.RecordSuccess();
          r := Success(Generated(CleanCode(content), ExplanationPrefix + prompt));
      }
    }

    /** `generate_ui_code` with its decorator: up to three attempts, one per round. */
    method GenerateUiCode(prompt: string, world: seq<Round>) returns (r: Result<Generated, string>)
      requires |world| == MaxAttempts
      requires breaker.Valid()
      modifies breaker
      ensures breaker.Valid()
      ensures var p := Protocol(breaker.Cfg(), old(breaker.Snapshot()), KeyConfigured(), prompt, world);
        r == p.result && breaker.Snapshot() == p.breaker
    {
      ghost var whole := Protocol(breaker.Cfg(), breaker.Snapshot(), KeyConfigured(), prompt, world);
      r := AttemptOnce(prompt, world[0]);
      var i := 1;
      while r.Failure? && i < |world|
        invariant 1 <= i <= |world|
        invariant breaker.Valid()
        invariant r.Failure? && i < |world| ==>
          var rest := Protocol(breaker.Cfg(), breaker.Snapshot(), KeyConfigured(), prompt, world[i..]);
          whole.result == rest.result && whole.breaker == rest.breaker
        invariant !(r.Failure? && i < |world|) ==> whole.result == r && whole.breaker == breaker.Snapshot()
        decreases |world| - i
      {
        r := AttemptOnce(prompt, world[i]);
        assert world[i..][1..] == world[i + 1..];
        i := i + 1;
      }
    }

    /** `get_health_status`: read-only. */
    function GetHealthStatus(): (h: HealthStatus)
      reads breaker
      ensures h.service == "llm" && h.circuitBreaker == breaker.GetState()
      ensures h.apiKeyConfigured <==> apiKey.Some? && apiKey.value != ""
    {
      HealthStatus("llm", breaker.GetState(), KeyConfigured())
    }
  }
}
