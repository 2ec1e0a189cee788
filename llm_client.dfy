/**
 * The chat-completion client: request shaping per provider, the system
 * prompt, a line filter over the streamed response, the retry loops and the
 * open/closed flag. HTTP and JSON are outside the model: each attempt's
 * outcome and each stream line's decoded content are inputs.
 */
module LlmClient {
  import opened Wrappers
  import opened Text

  const ProviderOpenAI: string := "openai"
  const ProviderClaude: string := "claude"
  const ProviderGemini: string := "gemini"
  const ProviderOpenRouter: string := "openrouter"
  const ProviderVolcengine: string := "volcengine"

  datatype Message = Message(role: string, content: string)

  /** One item on the response channel. */
  datatype StreamResponse = StreamResponse(content: string, done: bool, error: string)

  /** The fields of `Config` the modelled code reads. */
  datatype Config = Config(provider: string, apiKey: string, baseURL: string, model: string,
                           systemPrompt: string, maxRetries: int)

  const DefaultSystemPrompt: string := "你是一个智能助手，请根据用户的问题提供有帮助的回答。"

  /** `GetInstance`'s configuration, given the two configured Volcengine values. */
  function DefaultConfig(apiKey: string, model: string): (c: Config)
    ensures c.provider == ProviderVolcengine && c.maxRetries == 3 && c.systemPrompt != ""
  {
    Config(ProviderVolcengine, apiKey, "https://ark.cn-beijing.volces.com/api/v3", model, DefaultSystemPrompt, 3)
  }

  // --------------------------------------------------------- request shape

  /** `prepareMessages`: the system prompt, when there is one, goes first. */
  function PrepareMessages(c: Config, messages: seq<Message>): (r: seq<Message>)
    ensures c.systemPrompt != "" ==> |r| == |messages| + 1 && r[0] == Message("system", c.systemPrompt) && r[1..] == messages
    ensures c.systemPrompt == "" ==> r == messages
  {
    if c.systemPrompt != "" then [Message("system", c.systemPrompt)] + messages else messages
  }

  /** `getEndpointURL`. */
  function EndpointURL(c: Config): (url: string)
    ensures c.provider == ProviderClaude ==> url == c.baseURL + "/messages"
    ensures c.provider == ProviderGemini ==> url == c.baseURL + "/models/" + c.model + ":generateContent"
    ensures c.provider !in {ProviderClaude, ProviderGemini} ==> url == c.baseURL + "/chat/completions"
  {
    if c.provider == ProviderOpenAI || c.provider == ProviderOpenRouter then c.baseURL + "/chat/completions"
    else if c.provider == ProviderClaude then c.baseURL + "/messages"
    else if c.provider == ProviderGemini then c.baseURL + "/models/" + c.model + ":generateContent"
    else c.baseURL + "/chat/completions"
  }

  /** `setRequestHeaders`, as the header map it produces. */
  function RequestHeaders(c: Config): (h: map<string, string>)
    ensures "Content-Type" in h && h["Content-Type"] == "application/json"
    ensures c.provider == ProviderClaude ==>
      h == map["Content-Type" := "application/json", "x-api-key" := c.apiKey, "anthropic-version" := "2023-06-01"]
    ensures c.provider != ProviderClaude ==>
      h == map["Content-Type" := "application/json", "Authorization" := "Bearer " + c.apiKey]
  {
    var base := map["Content-Type" := "application/json"];
    if c.provider == ProviderOpenAI || c.provider == ProviderOpenRouter then base["Authorization" := "Bearer " + c.apiKey]
    else if c.provider == ProviderClaude then base["x-api-key" := c.apiKey]["anthropic-version" := "2023-06-01"]
    else if c.provider == ProviderGemini then base["Authorization" := "Bearer " + c.apiKey]
    else base["Authorization" := "Bearer " + c.apiKey]
  }

  /** Claude requests never carry a bearer token, and every other provider's do. */
  lemma BearerExactlyWhenNotClaude(c: Config)
    ensures "Authorization" in RequestHeaders(c) <==> c.provider != ProviderClaude
    ensures "x-api-key" in RequestHeaders(c) <==> c.provider == ProviderClaude
  {
  }

  // ------------------------------------------------------ stream line filter

  /** What JSON decoding of a data line yields: nothing, or the provider's content field. */
  datatype Decoded = Unparsable | Parsed(content: string)

  /** A scanned line together with the decode of its payload after "data: ". */
  datatype Line = Line(text: string, decoded: Decoded)

  const DataPrefix: string := "data: "

  function Done(): StreamResponse { StreamResponse("", true, "") }
  function Chunk(content: string): StreamResponse { StreamResponse(content, false, "") }

  predicate IsDataLine(l: Line) { l.text != "" && HasPrefix(l.text, DataPrefix) }

  /**
   * What `processStreamResponse` sends and returns for the remaining lines:
   * non-data lines and unparsable or empty payloads are skipped, "[DONE]"
   * sends Done and stops, and at the end of input a read error is returned,
   * otherwise Done is sent.
   */
  function StreamEvents(lines: seq<Line>, readErr: Option<string>): (r: (seq<StreamResponse>, Outcome))
    decreases |lines|
  {
    if |lines| == 0 then
      if readErr.Some? then ([], Fail("读取流式响应失败: " + readErr.value)) else ([Done()], Pass)
    else
      var l := lines[0];
      if !IsDataLine(l) then StreamEvents(lines[1..], readErr)
      else if TrimPrefix(l.text, DataPrefix) == "[DONE]" then ([Done()], Pass)
      else if l.decoded.Unparsable? || l.decoded.content == "" then StreamEvents(lines[1..], readErr)
      else
        var rest := StreamEvents(lines[1..], readErr);
        ([Chunk(l.decoded.content)] + rest.0, rest.1)
  }

  /** Every item but the last is a non-empty content chunk; the last is Done exactly when the fold succeeded. */
  lemma {:induction false} StreamEventsShape(lines: seq<Line>, readErr: Option<string>)
    ensures var (out, err) := StreamEvents(lines, readErr);
      && (forall i :: 0 <= i < |out| - 1 ==> !out[i].done && out[i].content != "" && out[i].error == "")
      && (err.Pass? <==> |out| > 0 && out[|out| - 1] == Done())
      && (forall i :: 0 <= i < |out| ==> out[i].error == "")
    decreases |lines|
  {
    if |lines| > 0 {
      StreamEventsShape(lines[1..], readErr);
    }
  }

  /** Lines without the "data: " prefix have no influence at all. */
  lemma {:induction false} StreamIgnoresNonData(pre: seq<Line>, l: Line, post: seq<Line>, readErr: Option<string>)
    requires !IsDataLine(l)
    ensures StreamEvents(pre + [l] + post, readErr) == StreamEvents(pre + post, readErr)
    decreases |pre|
  {
    if |pre| == 0 {
      assert pre + [l] + post == [l] + post;
      assert ([l] + post)[1..] == post;
      assert pre + post == post;
    } else {
      assert (pre + [l] + post)[0] == pre[0];
      assert (pre + [l] + post)[1..] == pre[1..] + [l] + post;
      assert (pre + post)[0] == pre[0];
      assert (pre + post)[1..] == pre[1..] + post;
      StreamIgnoresNonData(pre[1..], l, post, readErr);
    }
  }

  /** Nothing after a "[DONE]" line is looked at. */
  lemma DoneStops(l: Line, post: seq<Line>, readErr: Option<string>)
    requires IsDataLine(l) && TrimPrefix(l.text, DataPrefix) == "[DONE]"
    ensures StreamEvents([l] + post, readErr) == ([Done()], Pass)
  {
  }

  /** `processStreamResponse`: the scan loop over the response lines. */
  method ProcessStreamResponse(lines: seq<Line>, readErr: Option<string>) returns (sent: seq<StreamResponse>, err: Outcome)
    ensures (sent, err) == StreamEvents(lines, readErr)
  {
    sent := [];
    var i := 0;
    assert lines[i..] == lines;
    assert sent + StreamEvents(lines, readErr).0 == StreamEvents(lines, readErr).0;
    while i < |lines|
      invariant 0 <= i <= |lines|
      invariant StreamEvents(lines, readErr) == (sent + StreamEvents(lines[i..], readErr).0, StreamEvents(lines[i..], readErr).1)
      decreases |lines| - i
    {
      var l := lines[i];
      assert lines[i..][0] == l && lines[i..][1..] == lines[i + 1..];
      if !IsDataLine(l) {
        i := i + 1;
        continue;
      }
      var data := TrimPrefix(l.text, DataPrefix);
      if data == "[DONE]" {
        sent := sent + [Done()];
        return sent, Pass;
      }
      if l.decoded.Unparsable? {
        i := i + 1;
        continue;
      }
      if l.decoded.content != "" {
        assert sent + ([Chunk(l.decoded.content)] + StreamEvents(lines[i + 1..], readErr).0)
            == (sent + [Chunk(l.decoded.content)]) + StreamEvents(lines[i + 1..], readErr).0;
        sent := sent + [Chunk(l.decoded.content)];
      }
      i := i + 1;
    }
    assert lines[i..] == [];
    if readErr.Some? {
      assert sent + [] == sent;
      return sent, Fail("读取流式响应失败: " + readErr.value);
    }
    sent := sent + [Done()];
    err := Pass;
  }

  // ---------------------------------------------------------- retry loops

  /** One streaming attempt: the HTTP layer's error or non-200 status, or the scanned body. */
  datatype StreamAttempt = HttpFailed(reason: string) | Streamed(lines: seq<Line>, readErr: Option<string>)

  /** `doStreamRequest`: what one attempt sends and whether it failed. */
  function DoStream(a: StreamAttempt): (seq<StreamResponse>, Outcome) {
    match a
    case HttpFailed(reason) => ([], Fail(reason))
    case Streamed(lines, readErr) => StreamEvents(lines, readErr)
  }

  /** How `%v` prints the last error when no attempt ran: Go's nil error. */
  const NilError: string := "<nil>"

  /** The error of a retry loop that gave up: `head` names what failed, then the configured count and the last attempt's error. */
  function RetriedError(head: string, maxRetries: int, lastErr: string): (e: string)
    ensures HasPrefix(e, head + Itoa(maxRetries)) && HasSuffix(e, " 次: " + lastErr)
  {
    var e := head + Itoa(maxRetries) + " 次: " + lastErr;
    assert e == (head + Itoa(maxRetries)) + (" 次: " + lastErr);
    ConcatAffixes(head + Itoa(maxRetries), " 次: " + lastErr);
    e
  }

  /**
   * The attempts of `performStreamRequest` from some point on, `n` of them
   * left and `lastErr` the latest failure: everything sent, up to and
   * including the first attempt that succeeds, and otherwise the last error.
   */
  function StreamTries(attempts: seq<StreamAttempt>, n: int, lastErr: string): (r: (seq<StreamResponse>, Outcome))
    requires n <= |attempts|
    decreases if n < 0 then 0 else n
  {
    if n <= 0 then ([], Fail(lastErr))
    else
      var first := DoStream(attempts[0]);
      if first.1.Pass? then first
      else
        var rest := StreamTries(attempts[1..], n - 1, first.1.error);
        (first.0 + rest.0, rest.1)
  }

  /** `performStreamRequest` with `maxRetries` attempts: what was sent, and the outcome with the give-up error. */
  function RetryStream(attempts: seq<StreamAttempt>, maxRetries: int): (seq<StreamResponse>, Outcome)
    requires maxRetries <= |attempts|
  {
    var t := StreamTries(attempts, maxRetries, NilError);
    (t.0, if t.1.Pass? then Pass else Fail(RetriedError("流式请求失败，已重试 ", maxRetries, t.1.error)))
  }

  /** The tries succeed exactly when one of the first `n` attempts does, whatever the error so far. */
  lemma {:induction false} StreamTriesSucceed(attempts: seq<StreamAttempt>, n: int, lastErr: string)
    requires n <= |attempts|
    ensures StreamTries(attempts, n, lastErr).1.Pass? <==> exists i :: 0 <= i < n && DoStream(attempts[i]).1.Pass?
    decreases if n < 0 then 0 else n
  {
    if n > 0 && DoStream(attempts[0]).1.Fail? {
      var e := DoStream(attempts[0]).1.error;
      StreamTriesSucceed(attempts[1..], n - 1, e);
      if StreamTries(attempts[1..], n - 1, e).1.Pass? {
        var i :| 0 <= i < n - 1 && DoStream(attempts[1..][i]).1.Pass?;
        assert DoStream(attempts[i + 1]).1.Pass?;
      }
      if exists i :: 0 <= i < n && DoStream(attempts[i]).1.Pass? {
        var i :| 0 <= i < n && DoStream(attempts[i]).1.Pass?;
        assert DoStream(attempts[1..][i - 1]).1.Pass?;
      }
    }
  }

  /** The streamed request succeeds exactly when one of the first `MaxRetries` attempts does. */
  lemma RetryStreamSucceeds(attempts: seq<StreamAttempt>, n: int)
    requires n <= |attempts|
    ensures RetryStream(attempts, n).1.Pass? <==> exists i :: 0 <= i < n && DoStream(attempts[i]).1.Pass?
  {
    StreamTriesSucceed(attempts, n, NilError);
  }

  /** When every one of `n` attempts fails, the tries end with the error of the last one. */
  lemma {:induction false} StreamTriesLastError(attempts: seq<StreamAttempt>, n: int, lastErr: string)
    requires 0 < n <= |attempts|
    requires forall i :: 0 <= i < n ==> DoStream(attempts[i]).1.Fail?
    ensures StreamTries(attempts, n, lastErr).1 == Fail(DoStream(attempts[n - 1]).1.error)
    decreases n
  {
    var e := DoStream(attempts[0]).1.error;
    if n > 1 {
      forall i | 0 <= i < n - 1 ensures DoStream(attempts[1..][i]).1.Fail? {
        assert attempts[1..][i] == attempts[i + 1];
      }
      StreamTriesLastError(attempts[1..], n - 1, e);
      assert attempts[1..][n - 2] == attempts[n - 1];
    }
  }

  /**
   * When the streamed request gives up, its error names the configured
   * count and the last attempt's error, or `<nil>` when no attempt ran.
   */
  lemma RetryStreamGivesUp(attempts: seq<StreamAttempt>, n: int)
    requires n <= |attempts|
    requires forall i :: 0 <= i < n ==> DoStream(attempts[i]).1.Fail?
    ensures n <= 0 ==> RetryStream(attempts, n).1 == Fail("流式请求失败，已重试 " + Itoa(n) + " 次: " + NilError)
    ensures n > 0 ==> RetryStream(attempts, n).1
                      == Fail("流式请求失败，已重试 " + Itoa(n) + " 次: " + DoStream(attempts[n - 1]).1.error)
  {
    if n > 0 {
      StreamTriesLastError(attempts, n, NilError);
    }
  }

  /** `performStreamRequest`: try at most `maxRetries` times, stop at the first success, and remember the last error. */
  method PerformStreamRequest(attempts: seq<StreamAttempt>, maxRetries: int) returns (sent: seq<StreamResponse>, err: Outcome)
    requires maxRetries <= |attempts|
    ensures (sent, err) == RetryStream(attempts, maxRetries)
  {
    sent := [];
    var lastErr := NilError;
    var attempt := 0;
    ghost var whole := StreamTries(attempts, maxRetries, NilError);
    assert attempts[attempt..] == attempts;
    assert sent + whole.0 == whole.0;
    while attempt < maxRetries
      invariant 0 <= attempt <= |attempts|
      invariant maxRetries > 0 ==> attempt <= maxRetries
      invariant whole == (sent + StreamTries(attempts[attempt..], maxRetries - attempt, lastErr).0,
                          StreamTries(attempts[attempt..], maxRetries - attempt, lastErr).1)
      decreases maxRetries - attempt
    {
      assert attempts[attempt..][0] == attempts[attempt];
      assert attempts[attempt..][1..] == attempts[attempt + 1..];
      var out, e := DoStreamMethod(attempts[attempt]);
      if e.Pass? {
        return sent + out, Pass;
      }
      ghost var rest := StreamTries(attempts[attempt + 1..], maxRetries - attempt - 1, e.error);
      assert sent + (out + rest.0) == (sent + out) + rest.0;
      sent := sent + out;
      lastErr := e.error;
      attempt := attempt + 1;
    }
    assert sent + [] == sent;
    err := Fail(RetriedError("流式请求失败，已重试 ", maxRetries, lastErr));
  }

  /** `doStreamRequest`, written as the call it is. */
  method DoStreamMethod(a: StreamAttempt) returns (sent: seq<StreamResponse>, err: Outcome)
    ensures (sent, err) == DoStream(a)
  {
    match a
    case HttpFailed(reason) => sent, err := [], Fail(reason);
    case Streamed(lines, readErr) => sent, err := ProcessStreamResponse(lines, readErr);
  }

  /** The attempts of `performRequest` from some point on: the first success, otherwise the last error. */
  function Tries(attempts: seq<Result<string>>, n: int, lastErr: string): (r: Result<string>)
    requires n <= |attempts|
    decreases if n < 0 then 0 else n
  {
    if n <= 0 then Err(lastErr)
    else if attempts[0].Ok? then attempts[0]
    else Tries(attempts[1..], n - 1, attempts[0].error)
  }

  /** `performRequest` with `maxRetries` attempts: the first successful answer, or the give-up error. */
  function FirstOk(attempts: seq<Result<string>>, maxRetries: int): Result<string>
    requires maxRetries <= |attempts|
  {
    match Tries(attempts, maxRetries, NilError)
    case Ok(v) => Ok(v)
    case Err(e) => Err(RetriedError("请求失败，已重试 ", maxRetries, e))
  }

  /** The tries answer with the first success among the first `n` attempts, and fail exactly when all of them do. */
  lemma {:induction false} TriesSpec(attempts: seq<Result<string>>, n: int, lastErr: string)
    requires n <= |attempts|
    ensures Tries(attempts, n, lastErr).Ok? <==> exists i :: 0 <= i < n && attempts[i].Ok?
    ensures Tries(attempts, n, lastErr).Ok? ==>
      exists i :: 0 <= i < n && attempts[i] == Tries(attempts, n, lastErr) && forall j :: 0 <= j < i ==> attempts[j].Err?
    decreases if n < 0 then 0 else n
  {
    if n > 0 && attempts[0].Err? {
      var r := Tries(attempts, n, lastErr);
      TriesSpec(attempts[1..], n - 1, attempts[0].error);
      if r.Ok? {
        var i :| 0 <= i < n - 1 && attempts[1..][i] == r && forall j :: 0 <= j < i ==> attempts[1..][j].Err?;
        assert attempts[i + 1] == r;
        assert forall j :: 0 <= j < i + 1 ==> attempts[j].Err? by {
          forall j | 0 <= j < i + 1 ensures attempts[j].Err? {
            if j > 0 { assert attempts[j] == attempts[1..][j - 1]; }
          }
        }
      }
      if exists i :: 0 <= i < n && attempts[i].Ok? {
        var i :| 0 <= i < n && attempts[i].Ok?;
        assert attempts[1..][i - 1].Ok?;
      }
    }
  }

  /**
   * `performRequest` answers with the first success among the first `n`
   * attempts (all earlier ones failed), and fails exactly when all of them
   * do; with `n <= 0` nothing is tried.
   */
  lemma FirstOkSpec(attempts: seq<Result<string>>, n: int)
    requires n <= |attempts|
    ensures FirstOk(attempts, n).Ok? <==> exists i :: 0 <= i < n && attempts[i].Ok?
    ensures FirstOk(attempts, n).Ok? ==>
      exists i :: 0 <= i < n && attempts[i] == FirstOk(attempts, n) && forall j :: 0 <= j < i ==> attempts[j].Err?
  {
    TriesSpec(attempts, n, NilError);
  }

  /** When every one of `n` attempts fails, the tries end with the error of the last one. */
  lemma {:induction false} TriesLastError(attempts: seq<Result<string>>, n: int, lastErr: string)
    requires 0 < n <= |attempts|
    requires forall i :: 0 <= i < n ==> attempts[i].Err?
    ensures Tries(attempts, n, lastErr) == Err(attempts[n - 1].error)
    decreases n
  {
    if n > 1 {
      forall i | 0 <= i < n - 1 ensures attempts[1..][i].Err? {
        assert attempts[1..][i] == attempts[i + 1];
      }
      TriesLastError(attempts[1..], n - 1, attempts[0].error);
      assert attempts[1..][n - 2] == attempts[n - 1];
    }
  }

  /**
   * When the request gives up, its error names the configured count and the
   * last attempt's error, or `<nil>` when no attempt ran.
   */
  lemma FirstOkGivesUp(attempts: seq<Result<string>>, n: int)
    requires n <= |attempts|
    requires forall i :: 0 <= i < n ==> attempts[i].Err?
    ensures n <= 0 ==> FirstOk(attempts, n) == Err("请求失败，已重试 " + Itoa(n) + " 次: " + NilError)
    ensures n > 0 ==> FirstOk(attempts, n) == Err("请求失败，已重试 " + Itoa(n) + " 次: " + attempts[n - 1].error)
  {
    if n > 0 {
      TriesLastError(attempts, n, NilError);
    }
  }

  /** `performRequest`: try at most `maxRetries` times, return the first success, and remember the last error. */
  method PerformRequest(attempts: seq<Result<string>>, maxRetries: int) returns (r: Result<string>)
    requires maxRetries <= |attempts|
    ensures r == FirstOk(attempts, maxRetries)
  {
    var lastErr := NilError;
    var attempt := 0;
    assert attempts[attempt..] == attempts;
    while attempt < maxRetries
      invariant 0 <= attempt <= |attempts|
      invariant maxRetries > 0 ==> attempt <= maxRetries
      invariant Tries(attempts, maxRetries, NilError) == Tries(attempts[attempt..], maxRetries - attempt, lastErr)
      decreases maxRetries - attempt
    {
      assert attempts[attempt..][0] == attempts[attempt];
      assert attempts[attempt..][1..] == attempts[attempt + 1..];
      if attempts[attempt].Ok? {
        return attempts[attempt];
      }
      lastErr := attempts[attempt].error;
      attempt := attempt + 1;
    }
    r := Err(RetriedError("请求失败，已重试 ", maxRetries, lastErr));
  }

  // ----------------------------------------------------------- the client

  class Client {
    var config: Option<Config>
    var closed: bool
    var hasCancel: bool

    constructor (c: Config)
      ensures config == Some(c) && !closed && !hasCancel
    {
      config := Some(c);
      closed := false;
      hasCancel := false;
    }

    /** `IsReady`: open, configured, and holding a non-empty API key. */
    method IsReady() returns (r: bool)
      ensures r <==> !closed && config.Some? && config.value.apiKey != ""
    {
      r := !closed && config.Some? && config.value.apiKey != "";
    }

    /**
     * `Close`: idempotent; the first call marks closed and calls the cancel
     * function, which stays stored.
     */
    method Close() returns (err: Outcome)
      modifies this`closed
      ensures err.Pass? && closed && hasCancel == old(hasCancel)
      ensures old(closed) ==> unchanged(this)
    {
      if closed {
        return Pass;
      }
      closed := true;
      err := Pass;
    }

    /** `Reopen`: open again, with no cancel function. */
    method Reopen() returns (err: Outcome)
      modifies this`closed, this`hasCancel
      ensures err.Pass? && !closed && !hasCancel
    {
      closed := false;
      hasCancel := false;
      err := Pass;
    }

    /**
     * `Chat`: refused when closed or given no messages; otherwise the
     * prepared messages go to the retry loop and its answer is returned.
     */
    method Chat(messages: seq<Message>, attempts: seq<Result<string>>) returns (r: Result<string>, sentMessages: seq<Message>)
      requires config.Some? && config.value.maxRetries <= |attempts|
      ensures closed ==> r == Err("客户端已关闭") && sentMessages == []
      ensures !closed && |messages| == 0 ==> r == Err("消息列表不能为空") && sentMessages == []
      ensures !closed && |messages| > 0 ==>
        sentMessages == PrepareMessages(config.value, messages) && r == FirstOk(attempts, config.value.maxRetries)
    {
      if closed {
        return Err("客户端已关闭"), [];
      }
      if |messages| == 0 {
        return Err("消息列表不能为空"), [];
      }
      sentMessages := PrepareMessages(config.value, messages);
      r := PerformRequest(attempts, config.value.maxRetries);
    }

    /**
     * `ChatStream`: the same validation; then the channel receives what the
     * retry loop sends, followed by one Done item carrying the error when
     * every attempt failed, and is then closed.
     */
    method ChatStream(messages: seq<Message>, attempts: seq<StreamAttempt>)
      returns (r: Result<seq<StreamResponse>>, sentMessages: seq<Message>)
      requires config.Some? && config.value.maxRetries <= |attempts|
      ensures closed ==> r == Err("客户端已关闭") && sentMessages == []
      ensures !closed && |messages| == 0 ==> r == Err("消息列表不能为空") && sentMessages == []
      ensures !closed && |messages| > 0 ==>
        && sentMessages == PrepareMessages(config.value, messages)
        && var (out, e) := RetryStream(attempts, config.value.maxRetries);
           r == Ok(if e.Pass? then out else out + [StreamResponse("", true, e.error)])
    {
      if closed {
        return Err("客户端已关闭"), [];
      }
      if |messages| == 0 {
        return Err("消息列表不能为空"), [];
      }
      sentMessages := PrepareMessages(config.value, messages);
      var out, e := PerformStreamRequest(attempts, config.value.maxRetries);
      if e.Fail? {
        out := out + [StreamResponse("", true, e.error)];
      }
      r := Ok(out);
    }
  }
}
