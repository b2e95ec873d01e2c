/**
 * The chat endpoint of `src/app/api/openai/route.ts`: the fixed-window
 * rate limiter, the retry policy around the completion call, the
 * extraction of the reply text and the order of checks in `POST` with its
 * error-to-status mapping. The clock, the request and the outcome of each
 * completion call are parameters.
 */
module OpenAIRoute {
  import opened Wrappers
  import opened Text

  const RateLimitWindow := 60000
  const RateLimitMaxRequests := 10
  const MaxRetries := 3

  /** A client's entry in `requestCounts`. */
  datatype Window = Window(count: int, resetTime: int)

  /** A client whose current window has already let 10 requests through is refused. */
  predicate Refuses(counts: map<string, Window>, clientId: string, now: int) {
    clientId in counts && now <= counts[clientId].resetTime && counts[clientId].count >= RateLimitMaxRequests
  }

  /** The entries after `checkRateLimit(clientId)` at time `now`. */
  function Counted(counts: map<string, Window>, clientId: string, now: int): (r: map<string, Window>)
    ensures r.Keys == counts.Keys + {clientId}
    ensures forall c :: c in counts && c != clientId ==> r[c] == counts[c]
    ensures Refuses(counts, clientId, now) ==> r == counts
    ensures !Refuses(counts, clientId, now) ==> now <= r[clientId].resetTime
  {
    if clientId !in counts || now > counts[clientId].resetTime then counts[clientId := Window(1, now + RateLimitWindow)]
    else if counts[clientId].count >= RateLimitMaxRequests then counts
    else counts[clientId := counts[clientId].(count := counts[clientId].count + 1)]
  }

  /**
   * `requestCounts` with `checkRateLimit`. `admitted` is a ghost record
   * of the times at which the current window of each client let a
   * request through.
   */
  class RateLimiter {
    var requestCounts: map<string, Window>
    ghost var admitted: map<string, seq<int>>

    /** Each window has let through between 1 and 10 requests, all of them no later than its reset time. */
    ghost predicate Valid()
      reads this
    {
      && requestCounts.Keys == admitted.Keys
      && forall c :: c in requestCounts ==>
           && requestCounts[c].count == |admitted[c]|
           && 1 <= requestCounts[c].count <= RateLimitMaxRequests
           && (forall k :: 0 <= k < |admitted[c]| ==> admitted[c][k] <= requestCounts[c].resetTime)
    }

    constructor()
      ensures Valid() && requestCounts == map[]
    {
      requestCounts := map[];
      admitted := map[];
    }

    /**
     * `checkRateLimit(clientId)` at time `now`. A client without an entry,
     * or whose window has passed (`now > resetTime`; `now == resetTime`
     * is still inside), starts a new window of one request. Inside a
     * window, a count of 10 refuses and changes nothing; below it, the
     * count rises by one. No other client's entry changes.
     */
    method CheckRateLimit(clientId: string, now: int) returns (allowed: bool)
      requires Valid()
      modifies this
      ensures Valid()
      ensures allowed <==> !Refuses(old(requestCounts), clientId, now)
      ensures requestCounts == Counted(old(requestCounts), clientId, now)
      ensures clientId !in old(requestCounts) || now > old(requestCounts)[clientId].resetTime ==>
                && allowed
                && requestCounts == old(requestCounts)[clientId := Window(1, now + RateLimitWindow)]
                && admitted == old(admitted)[clientId := [now]]
      ensures clientId in old(requestCounts) && now <= old(requestCounts)[clientId].resetTime ==>
                var w := old(requestCounts)[clientId];
                && (allowed <==> w.count < RateLimitMaxRequests)
                && (!allowed ==> requestCounts == old(requestCounts) && admitted == old(admitted))
                && (allowed ==> requestCounts == old(requestCounts)[clientId := w.(count := w.count + 1)]
                                && admitted == old(admitted)[clientId := old(admitted)[clientId] + [now]])
    {
      if clientId !in requestCounts || now > requestCounts[clientId].resetTime {
        requestCounts := requestCounts[clientId := Window(1, now + RateLimitWindow)];
        admitted := admitted[clientId := [now]];
        return true;
      }
      var clientData := requestCounts[clientId];
      if clientData.count >= RateLimitMaxRequests {
        return false;
      }
      requestCounts := requestCounts[clientId := clientData.(count := clientData.count + 1)];
      admitted := admitted[clientId := admitted[clientId] + [now]];
      allowed := true;
    }
  }

  /** What a failed completion call threw: its `status` and `code`, and the `retry-after` header read as whole seconds. */
  datatype ApiError = ApiError(status: Option<int>, code: Option<string>, retryAfter: Option<nat>, message: string)

  datatype Completion = Completion(choices: Option<seq<Choice>>)
  datatype Choice = Choice(message: Option<Message>)
  datatype Content = TextContent(text: string) | OtherContent
  /** An entry of `tool_calls`: a function tool, another object, or `null` (on which `'function' in call` throws). */
  datatype ToolCall = FunctionTool(name: string) | OtherTool | NullTool
  datatype FunctionCall = FunctionCall(name: string, arguments: string)
  datatype Message = Message(content: Content, functionCall: Option<FunctionCall>, toolCalls: Option<seq<ToolCall>>)

  /** The result of one call of `openai.chat.completions.create`. */
  datatype Outcome = Success(completion: Completion) | Failure(error: ApiError)

  /** How `callOpenAIWithRetry` ended, and after how many calls. */
  datatype RetryResult =
    | Completed(completion: Completion, calls: nat)
    | Thrown(error: ApiError, calls: nat)
    | Exhausted

  predicate IsRateLimited(o: Outcome) {
    o.Failure? && o.error.status == Some(429)
  }

  function Pow2(n: nat): (r: nat)
    ensures r >= 1
  {
    if n == 0 then 1 else 2 * Pow2(n - 1)
  }

  /** The wait before the next attempt: the `retry-after` seconds when the header is there, else 2^attempt seconds, in milliseconds. */
  function RetryDelay(e: ApiError, attempt: nat): (ms: nat)
    ensures e.retryAfter.Some? ==> ms == e.retryAfter.value * 1000
    ensures e.retryAfter.None? ==> ms == Pow2(attempt) * 1000 && ms >= 2000 * attempt
  {
    Pow2Grows(attempt);
    match e.retryAfter
    case Some(seconds) => seconds * 1000
    case None => Pow2(attempt) * 1000
  }

  lemma {:induction false} Pow2Grows(n: nat)
    ensures Pow2(n) >= 2 * n
  {
    if n > 0 {
      Pow2Grows(n - 1);
    }
  }

  /**
   * `callOpenAIWithRetry`: attempt `k` (from 1) makes the call whose
   * result is `outcome(k)`. A success is returned at once; a 429 before
   * the last attempt waits and retries; a 429 on the last attempt, or any
   * other error, is thrown. `waits` are the sleeps taken, in order.
   */
  method CallOpenAIWithRetry(outcome: nat -> Outcome, maxRetries: nat) returns (r: RetryResult, waits: seq<nat>)
    ensures r.Exhausted? <==> maxRetries == 0
    ensures r.Exhausted? ==> waits == []
    ensures !r.Exhausted? ==> 1 <= r.calls <= maxRetries && |waits| == r.calls - 1
    ensures !r.Exhausted? ==> forall k :: 1 <= k < r.calls ==> IsRateLimited(outcome(k))
    ensures r.Completed? ==> outcome(r.calls) == Success(r.completion)
    ensures r.Thrown? ==> outcome(r.calls) == Failure(r.error) && (r.error.status != Some(429) || r.calls == maxRetries)
    ensures forall i :: 0 <= i < |waits| ==> outcome(i + 1).Failure? && waits[i] == RetryDelay(outcome(i + 1).error, i + 1)
  {
    waits := [];
    var attempt := 1;
    while attempt <= maxRetries
      invariant 1 <= attempt && (attempt <= maxRetries || attempt == 1)
      invariant forall k :: 1 <= k < attempt ==> IsRateLimited(outcome(k))
      invariant |waits| == attempt - 1
      invariant forall i :: 0 <= i < |waits| ==> outcome(i + 1).Failure? && waits[i] == RetryDelay(outcome(i + 1).error, i + 1)
      decreases maxRetries - attempt
    {
      match outcome(attempt) {
        case Success(completion) =>
          return Completed(completion, attempt), waits;
        case Failure(error) =>
          if error.status == Some(429) {
            if attempt == maxRetries {
              return Thrown(error, attempt), waits;
            }
            waits := waits + [RetryDelay(error, attempt)];
            attempt := attempt + 1;
          } else {
            return Thrown(error, attempt), waits;
          }
      }
    }
    r := Exhausted;
  }

  /**
   * `extractMessageContent`: the text when the first choice's content is a
   * string, else a fixed message, tested in this order; a `null` tool call
   * makes the name lookup throw, and the `catch` answers
   * "Error processing response".
   */
  function ExtractMessageContent(c: Completion): (r: string)
    ensures c.choices.None? || |c.choices.value| == 0 ==> r == "No response generated"
    ensures c.choices.Some? && |c.choices.value| > 0 ==>
              var choice := c.choices.value[0];
              && (choice.message.None? ==> r == "No message in response")
              && (choice.message.Some? && choice.message.value.content.TextContent? ==>
                    r == choice.message.value.content.text)
  {
    if c.choices.None? || |c.choices.value| == 0 then "No response generated"
    else
      match c.choices.value[0].message
      case None => "No message in response"
      case Some(m) =>
        if m.content.TextContent? then m.content.text
        else if m.functionCall.Some? then
          "Function call: " + m.functionCall.value.name + " with arguments " + m.functionCall.value.arguments
        else if m.toolCalls.Some? && |m.toolCalls.value| > 0 then
          if NullTool in m.toolCalls.value then "Error processing response"
          else "Tool calls: " + Join(ToolNames(m.toolCalls.value), ", ")
        else "Response received but content format not recognized"
  }

  /** The name shown for each tool call: the function's name, or "Unknown tool". */
  function ToolNames(calls: seq<ToolCall>): (r: seq<string>)
    ensures |r| == |calls|
    ensures forall i :: 0 <= i < |calls| ==> r[i] == (if calls[i].FunctionTool? then calls[i].name else "Unknown tool")
  {
    seq(|calls|, i requires 0 <= i < |calls| => if calls[i].FunctionTool? then calls[i].name else "Unknown tool")
  }

  /** The fixed messages come in the cascade's order: a message without string content reports a function call before tool calls. */
  lemma ExtractCascade(m: Message)
    requires !m.content.TextContent?
    ensures var r := ExtractMessageContent(Completion(Some([Choice(Some(m))])));
            && (m.functionCall.Some? ==> r == "Function call: " + m.functionCall.value.name + " with arguments " + m.functionCall.value.arguments)
            && (m.functionCall.None? && m.toolCalls.Some? && |m.toolCalls.value| > 0 && NullTool !in m.toolCalls.value ==>
                  r == "Tool calls: " + Join(ToolNames(m.toolCalls.value), ", "))
            && (m.functionCall.None? && m.toolCalls.Some? && NullTool in m.toolCalls.value ==>
                  r == "Error processing response")
            && (m.functionCall.None? && (m.toolCalls.None? || |m.toolCalls.value| == 0) ==>
                  r == "Response received but content format not recognized")
  {
  }

  /** The `POST` request as the handler sees it: `None` when `request.json()` throws. */
  datatype Body = Body(messages: Option<seq<string>>)
  datatype Request = Request(body: Option<Body>, forwardedFor: Option<string>, realIp: Option<string>)

  datatype ErrorKind = BadRequest | NotConfigured | ClientRateLimited | UpstreamRateLimited | InvalidApiKey | QuotaExceeded | Failed
  datatype Response =
    | Answer(content: string)
    | Rejected(status: int, kind: ErrorKind, retryAfter: Option<string>)

  /** `x-forwarded-for || x-real-ip || 'unknown-client'`: an empty header counts as missing. */
  function ClientId(forwardedFor: Option<string>, realIp: Option<string>): (id: string)
    ensures id != ""
    ensures forwardedFor.Some? && forwardedFor.value != "" ==> id == forwardedFor.value
  {
    if forwardedFor.Some? && forwardedFor.value != "" then forwardedFor.value
    else if realIp.Some? && realIp.value != "" then realIp.value
    else "unknown-client"
  }

  /** The `catch` of `POST`: status 429, then 401, then the code `insufficient_quota`, else 500. */
  function ErrorResponse(e: ApiError): (r: Response)
    ensures r.Rejected?
    ensures r.status == 429 <==> e.status == Some(429) || (e.status != Some(401) && e.code == Some("insufficient_quota"))
    ensures r.status == 401 <==> e.status == Some(401)
    ensures r.status in {401, 429, 500}
  {
    if e.status == Some(429) then Rejected(429, UpstreamRateLimited, Some("60"))
    else if e.status == Some(401) then Rejected(401, InvalidApiKey, None)
    else if e.code == Some("insufficient_quota") then Rejected(429, QuotaExceeded, None)
    else Rejected(500, Failed, None)
  }

  /** A thrown value that is not an API error: no status and no code, so a 500. */
  function PlainError(message: string): ApiError {
    ApiError(None, None, None, message)
  }

  /**
   * `POST`: a body without a messages array gives 400, a missing API key
   * 500, a refused client 429 with `Retry-After: 60`; only then is the
   * model called, through the retry policy with its default of 3 attempts.
   * A body that does not parse is thrown and caught, so it gives 500. An
   * error thrown by the last call goes through the `catch`'s mapping; so
   * does a completion without `choices`, whose `choices[0]` read throws
   * while the response is built.
   */
  method Post(limiter: RateLimiter, req: Request, apiKeyConfigured: bool, now: int, outcome: nat -> Outcome)
    returns (resp: Response, calls: nat)
    requires limiter.Valid()
    modifies limiter
    ensures limiter.Valid()
    ensures req.body.None? || req.body.value.messages.None? || !apiKeyConfigured ==>
              calls == 0 && resp.Rejected? && limiter.requestCounts == old(limiter.requestCounts)
    ensures req.body.None? ==> resp == Rejected(500, Failed, None)
    ensures req.body.Some? && req.body.value.messages.None? ==> resp == Rejected(400, BadRequest, None)
    ensures req.body.Some? && req.body.value.messages.Some? && !apiKeyConfigured ==> resp == Rejected(500, NotConfigured, None)
    ensures Checked(req, apiKeyConfigured) ==>
              limiter.requestCounts == Counted(old(limiter.requestCounts), ClientId(req.forwardedFor, req.realIp), now)
    ensures resp == Rejected(429, ClientRateLimited, Some("60")) <==>
              Checked(req, apiKeyConfigured) && Refuses(old(limiter.requestCounts), ClientId(req.forwardedFor, req.realIp), now)
    ensures Checked(req, apiKeyConfigured) && !Refuses(old(limiter.requestCounts), ClientId(req.forwardedFor, req.realIp), now) ==>
              && 1 <= calls <= MaxRetries
              && (forall k :: 1 <= k < calls ==> IsRateLimited(outcome(k)))
              && (IsRateLimited(outcome(calls)) ==> calls == MaxRetries)
    ensures calls == 0 ==> resp.Rejected?
    ensures calls >= 1 && outcome(calls).Failure? ==> resp == ErrorResponse(outcome(calls).error)
    ensures calls >= 1 && outcome(calls).Success? && outcome(calls).completion.choices.None? ==> resp == Rejected(500, Failed, None)
    ensures calls >= 1 && outcome(calls).Success? && outcome(calls).completion.choices.Some? ==>
              resp == Answer(ExtractMessageContent(outcome(calls).completion))
    ensures resp.Answer? ==> 1 <= calls && outcome(calls).Success? && resp.content == ExtractMessageContent(outcome(calls).completion)
  {
    calls := 0;
    if req.body.None? {
      return ErrorResponse(PlainError("request body is not JSON")), 0;
    }
    if req.body.value.messages.None? {
      return Rejected(400, BadRequest, None), 0;
    }
    if !apiKeyConfigured {
      return Rejected(500, NotConfigured, None), 0;
    }
    var clientId := ClientId(req.forwardedFor, req.realIp);
    var allowed := limiter.CheckRateLimit(clientId, now);
    if !allowed {
      return Rejected(429, ClientRateLimited, Some("60")), 0;
    }
    resp, calls := Complete(outcome);
  }

  /**
   * The rest of `POST` once the request is admitted: the retried call and
   * the response built from its completion, or the `catch`'s mapping of
   * what was thrown.
   */
  method Complete(outcome: nat -> Outcome) returns (resp: Response, calls: nat)
    ensures 1 <= calls <= MaxRetries
    ensures forall k :: 1 <= k < calls ==> IsRateLimited(outcome(k))
    ensures IsRateLimited(outcome(calls)) ==> calls == MaxRetries
    ensures outcome(calls).Failure? ==> resp == ErrorResponse(outcome(calls).error)
    ensures outcome(calls).Success? && outcome(calls).completion.choices.None? ==> resp == Rejected(500, Failed, None)
    ensures outcome(calls).Success? && outcome(calls).completion.choices.Some? ==>
              resp == Answer(ExtractMessageContent(outcome(calls).completion))
  {
    calls := 0;
    var result, waits := CallOpenAIWithRetry(outcome, MaxRetries);
    match result {
      case Completed(completion, n) =>
        calls := n;
        if completion.choices.None? {
          resp := ErrorResponse(PlainError("Cannot read properties of undefined (reading '0')"));
        } else {
          resp := Answer(ExtractMessageContent(completion));
        }
      case Thrown(error, n) =>
        resp, calls := ErrorResponse(error), n;
      case Exhausted =>
        assert false;
    }
  }

  /** The request passed the body and key checks, so the limiter is consulted. */
  predicate Checked(req: Request, apiKeyConfigured: bool) {
    req.body.Some? && req.body.value.messages.Some? && apiKeyConfigured
  }

  /** The waits without a `retry-after` header: 2 seconds after the first 429, 4 after the second. */
  lemma BackoffDelays(e: ApiError)
    requires e.retryAfter.None?
    ensures RetryDelay(e, 1) == 2000 && RetryDelay(e, 2) == 4000
  {
  }
}
