/** The retry loop of `QwenClientEnhanced.chat` and `simple_prompt` in
    `api_clients/qwen_client_enhanced.py`. What each attempt meets (an HTTP
    answer, a timeout, a connection error or another exception) is the
    parameter `outcome`; the waits are recorded instead of slept. */
module QwenClient {
  import opened Wrappers
  import opened Text
  import opened JsonValue
  import Seqs

  /** The defaults of `MAX_RETRIES` and `API_TIMEOUT` in `config.py`. */
  const MaxRetries: nat := 3
  const ApiTimeout: nat := 300

  /** Above this many tokens, a timeout on the final attempt halves the
      request's `max_tokens`. */
  const TokenHalvingThreshold: nat := 3000

  /** Stands for the text of the `KeyError`, `IndexError` or `TypeError`
      raised when a 200 answer lacks `choices[0].message.content`. */
  const MalformedReply := "malformed reply"

  datatype Message = Message(role: string, content: string)

  /** What one attempt came to. */
  datatype Outcome =
    | Responded(status: nat, text: string, body: Json)
    | TimedOut(detail: string)
    | ConnectionFailed(detail: string)
    | Raised(detail: string)

  datatype ChatResult = ChatOk(content: Json, usage: Json) | ChatErr(error: string)

  /** What the loop does after one attempt: return `result`, or go on to the
      next attempt after waiting `extra` seconds, with `lastError` replaced
      when `error` is given. */
  datatype Step = Done(result: ChatResult) | Retry(error: Option<string>, extra: seq<nat>)

  /** The messages sent: a non-empty system prompt goes first. */
  function Messages(messages: seq<Message>, systemPrompt: Option<string>): (r: seq<Message>)
    ensures systemPrompt.Some? && systemPrompt.value != "" ==>
              |r| == |messages| + 1 && r[0] == Message("system", systemPrompt.value) && r[1..] == messages
    ensures !(systemPrompt.Some? && systemPrompt.value != "") ==> r == messages
  {
    if systemPrompt.Some? && systemPrompt.value != "" then [Message("system", systemPrompt.value)] + messages
    else messages
  }

  function Pow2(k: nat): (r: nat)
    ensures r >= 1
  {
    if k == 0 then 1 else 2 * Pow2(k - 1)
  }

  /** `result["choices"][0]["message"]["content"]` and `result.get("usage",
      {})`, or `None` where the lookup raises. */
  function Reply(body: Json): Option<ChatResult> {
    if !body.JObj? || "choices" !in body.fields then None
    else
      var choices := body.fields["choices"];
      if !choices.JArr? || |choices.items| == 0 || !choices.items[0].JObj? then None
      else
        var choice := choices.items[0].fields;
        if "message" !in choice || !choice["message"].JObj? || "content" !in choice["message"].fields then None
        else Some(ChatOk(choice["message"].fields["content"], Get(body.fields, "usage", JObj(map[]))))
  }

  function TimeoutError(timeout: nat, detail: string): string {
    "请求超时（" + NatToString(timeout) + "秒）: " + detail
  }

  function StatusError(status: nat, text: string): string {
    "API错误 " + NatToString(status) + ": " + text
  }

  /** The final error once every attempt is used; a missing last error is
      shown as Python shows `None`. */
  function Exhausted(maxRetries: nat, lastError: Option<string>): string {
    "API调用失败（已重试" + NatToString(maxRetries) + "次）: " + (if lastError.Some? then lastError.value else "None")
  }

  /** Whether `outcome` makes the loop try again. */
  predicate Retryable(o: Outcome) {
    !o.Responded? || o.status == 429 || o.status >= 500 || (o.status == 200 && Reply(o.body).None?)
  }

  /** The body of one iteration of the `for attempt` loop. */
  function StepOf(o: Outcome, timeout: nat): (s: Step)
    ensures s.Retry? <==> Retryable(o)
  {
    match o
    case Responded(status, text, body) =>
      if status == 200 then
        (if Reply(body).Some? then Done(Reply(body).value) else Retry(Some(MalformedReply), []))
      else if status == 429 then Retry(None, [5])
      else if status >= 500 then Retry(None, [])
      else Done(ChatErr(StatusError(status, text)))
    case TimedOut(detail) => Retry(Some(TimeoutError(timeout, detail)), [])
    case ConnectionFailed(detail) => Retry(Some("连接错误: " + detail), [])
    case Raised(detail) => Retry(Some(detail), [])
  }

  /** The loop's state after some attempts: the last error recorded, the
      waits so far, the number of requests sent, and the result once an
      attempt has returned one. */
  datatype LoopState = LoopState(lastError: Option<string>, waits: seq<nat>, attempts: nat, finished: Option<ChatResult>)

  /** The waits before attempt `k`: the backoff `2**k` from the second
      attempt on. */
  function Backoff(k: nat): (w: seq<nat>)
    ensures k == 0 ==> w == []
    ensures k > 0 ==> w == [Pow2(k)]
  {
    if k > 0 then [Pow2(k)] else []
  }

  /** The state after the first `n` attempts; once an attempt has returned,
      no further attempt changes anything. */
  function Loop(n: nat, timeout: nat, outcome: nat -> Outcome): (st: LoopState)
    ensures st.attempts <= n
    ensures st.finished.None? ==> st.attempts == n
  {
    if n == 0 then LoopState(None, [], 0, None)
    else
      var st := Loop(n - 1, timeout, outcome);
      if st.finished.Some? then st
      else
        match StepOf(outcome(n - 1), timeout)
        case Done(r) => LoopState(st.lastError, st.waits + Backoff(n - 1), n, Some(r))
        case Retry(e, extra) =>
          LoopState(if e.Some? then e else st.lastError, st.waits + Backoff(n - 1) + extra, n, None)
  }

  /** What `chat` returns after at most `maxRetries` attempts. */
  function ChatOutcome(maxRetries: nat, timeout: nat, outcome: nat -> Outcome): ChatResult {
    var st := Loop(maxRetries, timeout, outcome);
    if st.finished.Some? then st.finished.value else ChatErr(Exhausted(maxRetries, st.lastError))
  }

  /** One more attempt from an unfinished state. */
  lemma LoopNext(n: nat, timeout: nat, outcome: nat -> Outcome)
    requires Loop(n, timeout, outcome).finished.None?
    ensures var st := Loop(n, timeout, outcome);
            var s := StepOf(outcome(n), timeout);
            Loop(n + 1, timeout, outcome)
            == if s.Done? then LoopState(st.lastError, st.waits + Backoff(n), n + 1, Some(s.result))
               else LoopState(if s.error.Some? then s.error else st.lastError, st.waits + Backoff(n) + s.extra, n + 1, None)
  {
  }

  /** Once finished, the state stays as it is. */
  lemma {:induction false} FinishedStays(m: nat, n: nat, timeout: nat, outcome: nat -> Outcome)
    requires m <= n && Loop(m, timeout, outcome).finished.Some?
    ensures Loop(n, timeout, outcome) == Loop(m, timeout, outcome)
    decreases n - m
  {
    if m < n {
      FinishedStays(m, n - 1, timeout, outcome);
    }
  }

  /** The state an attempt that retries leaves. */
  lemma LoopRetry(n: nat, timeout: nat, outcome: nat -> Outcome, lastError: Option<string>, waits: seq<nat>)
    requires Loop(n, timeout, outcome) == LoopState(lastError, waits, n, None)
    requires StepOf(outcome(n), timeout).Retry?
    ensures var s := StepOf(outcome(n), timeout);
            Loop(n + 1, timeout, outcome)
            == LoopState(if s.error.Some? then s.error else lastError, waits + Backoff(n) + s.extra, n + 1, None)
  {
    LoopNext(n, timeout, outcome);
  }

  /** What `chat` ends with when attempt `n` returns. */
  lemma LoopReturn(n: nat, maxRetries: nat, timeout: nat, outcome: nat -> Outcome, lastError: Option<string>, waits: seq<nat>)
    requires n < maxRetries
    requires Loop(n, timeout, outcome) == LoopState(lastError, waits, n, None)
    requires StepOf(outcome(n), timeout).Done?
    ensures ChatOutcome(maxRetries, timeout, outcome) == StepOf(outcome(n), timeout).result
    ensures Loop(maxRetries, timeout, outcome).waits == waits + Backoff(n)
    ensures Loop(maxRetries, timeout, outcome).attempts == n + 1
  {
    LoopNext(n, timeout, outcome);
    FinishedStays(n + 1, maxRetries, timeout, outcome);
  }

  /** `n` copies of `x`. */
  function Repeat(x: nat, n: nat): (r: seq<nat>)
    ensures |r| == n && forall i :: 0 <= i < n ==> r[i] == x
  {
    if n == 0 then [] else Repeat(x, n - 1) + [x]
  }

  /** `chat`: the result, the waits, and the `max_tokens` of every request
      sent. */
  method Chat(messages: seq<Message>, maxTokens: nat, systemPrompt: Option<string>,
              maxRetries: nat, timeout: nat, outcome: nat -> Outcome)
    returns (r: ChatResult, waits: seq<nat>, sent: seq<nat>, payload: seq<Message>)
    ensures payload == Messages(messages, systemPrompt)
    ensures r == ChatOutcome(maxRetries, timeout, outcome)
    ensures waits == Loop(maxRetries, timeout, outcome).waits
    ensures sent == Repeat(maxTokens, Loop(maxRetries, timeout, outcome).attempts)
  {
    payload := Messages(messages, systemPrompt);
    var payloadMaxTokens := maxTokens;
    var lastError: Option<string> := None;
    waits := [];
    sent := [];
    for attempt := 0 to maxRetries
      invariant Loop(attempt, timeout, outcome) == LoopState(lastError, waits, attempt, None)
      invariant sent == Repeat(maxTokens, attempt)
      invariant attempt < maxRetries ==> payloadMaxTokens == maxTokens
    {
      ghost var before := waits;
      waits := waits + Backoff(attempt);
      sent := sent + [payloadMaxTokens];
      var o := outcome(attempt);
      var step := StepOf(o, timeout);
      if step.Done? {
        LoopReturn(attempt, maxRetries, timeout, outcome, lastError, before);
        return step.result, waits, sent, payload;
      }
      LoopRetry(attempt, timeout, outcome, lastError, before);
      if step.error.Some? {
        lastError := step.error;
      }
      waits := waits + step.extra;
      if o.TimedOut? && attempt + 1 == maxRetries && maxTokens > TokenHalvingThreshold {
        payloadMaxTokens := maxTokens / 2;
      }
    }
    r := ChatErr(Exhausted(maxRetries, lastError));
  }

  /** `simple_prompt`: the reply's content, or the exception it raises. */
  method SimplePrompt(prompt: string, maxTokens: nat, systemPrompt: Option<string>,
                      maxRetries: nat, timeout: nat, outcome: nat -> Outcome)
    returns (r: Result<Json>)
    ensures var t := ChatOutcome(maxRetries, timeout, outcome);
            (t.ChatOk? ==> r == Ok(t.content)) && (t.ChatErr? ==> r == Err("Qwen API调用失败: " + t.error))
  {
    var result, _, _, _ := Chat([Message("user", prompt)], maxTokens, systemPrompt, maxRetries, timeout, outcome);
    if result.ChatOk? {
      r := Ok(result.content);
    } else {
      r := Err("Qwen API调用失败: " + result.error);
    }
  }

  // ---------------------------------------------------------------------
  // Properties

  /** While every attempt retries, the loop goes on. */
  lemma {:induction false} RetriesContinue(n: nat, timeout: nat, outcome: nat -> Outcome)
    requires forall i :: 0 <= i < n ==> Retryable(outcome(i))
    ensures Loop(n, timeout, outcome).finished.None? && Loop(n, timeout, outcome).attempts == n
  {
    if n > 0 {
      RetriesContinue(n - 1, timeout, outcome);
      LoopNext(n - 1, timeout, outcome);
    }
  }

  /** The first attempt that does not retry decides the result, a success
      or an error status returned at once, and no request follows it. */
  lemma FirstFinalDecides(j: nat, maxRetries: nat, timeout: nat, outcome: nat -> Outcome)
    requires j < maxRetries
    requires forall i :: 0 <= i < j ==> Retryable(outcome(i))
    requires !Retryable(outcome(j))
    ensures ChatOutcome(maxRetries, timeout, outcome) == StepOf(outcome(j), timeout).result
    ensures Loop(maxRetries, timeout, outcome).attempts == j + 1
  {
    RetriesContinue(j, timeout, outcome);
    LoopNext(j, timeout, outcome);
    FinishedStays(j + 1, maxRetries, timeout, outcome);
  }

  /** When every attempt retries, all `max_retries` attempts are made and
      the error names that count and the last error recorded, which is the
      final attempt's own when that attempt recorded one. */
  lemma AllRetriesExhaust(maxRetries: nat, timeout: nat, outcome: nat -> Outcome)
    requires forall i :: 0 <= i < maxRetries ==> Retryable(outcome(i))
    ensures Loop(maxRetries, timeout, outcome).attempts == maxRetries
    ensures ChatOutcome(maxRetries, timeout, outcome) == ChatErr(Exhausted(maxRetries, Loop(maxRetries, timeout, outcome).lastError))
    ensures maxRetries > 0 && StepOf(outcome(maxRetries - 1), timeout).error.Some? ==>
              Loop(maxRetries, timeout, outcome).lastError == StepOf(outcome(maxRetries - 1), timeout).error
  {
    RetriesContinue(maxRetries, timeout, outcome);
    if maxRetries > 0 {
      RetriesContinue(maxRetries - 1, timeout, outcome);
      LoopNext(maxRetries - 1, timeout, outcome);
    }
  }

  /** Server errors on every attempt: the waits are exactly the exponential
      backoff, `2**k` before each attempt `k` after the first, and no error
      is recorded. */
  lemma {:induction false} ServerErrorBackoff(n: nat, timeout: nat, outcome: nat -> Outcome)
    requires forall i :: 0 <= i < n ==> outcome(i).Responded? && outcome(i).status >= 500
    ensures Loop(n, timeout, outcome).finished.None? && Loop(n, timeout, outcome).lastError.None?
    ensures Loop(n, timeout, outcome).waits == seq(if n > 0 then n - 1 else 0, i requires 0 <= i => Pow2(i + 1))
  {
    if n > 0 {
      ServerErrorBackoff(n - 1, timeout, outcome);
      LoopNext(n - 1, timeout, outcome);
      var w := Loop(n, timeout, outcome).waits;
      var prev := Loop(n - 1, timeout, outcome).waits;
      assert w == prev + Backoff(n - 1);
    }
  }

  /** A rate limit adds five seconds to the wait before the next attempt. */
  lemma RateLimitWaits(n: nat, timeout: nat, outcome: nat -> Outcome, text: string, body: Json)
    requires Loop(n, timeout, outcome).finished.None?
    requires outcome(n) == Responded(429, text, body)
    ensures Loop(n + 1, timeout, outcome).finished.None?
    ensures Loop(n + 1, timeout, outcome).waits == Loop(n, timeout, outcome).waits + Backoff(n) + [5]
    ensures Loop(n + 1, timeout, outcome).lastError == Loop(n, timeout, outcome).lastError
  {
    LoopNext(n, timeout, outcome);
  }

  /** With the default three attempts and server errors throughout, the
      client waits 2 and then 4 seconds, sends three requests and fails
      with no last error to report. */
  lemma DefaultServerErrors(timeout: nat, outcome: nat -> Outcome)
    requires forall i :: 0 <= i < MaxRetries ==> outcome(i).Responded? && outcome(i).status >= 500
    ensures Loop(MaxRetries, timeout, outcome).waits == [2, 4]
    ensures Loop(MaxRetries, timeout, outcome).attempts == 3
    ensures ChatOutcome(MaxRetries, timeout, outcome) == ChatErr(Exhausted(MaxRetries, None))
  {
    ServerErrorBackoff(MaxRetries, timeout, outcome);
    AllRetriesExhaust(MaxRetries, timeout, outcome);
    assert Pow2(1) == 2 && Pow2(2) == 4;
  }
}
