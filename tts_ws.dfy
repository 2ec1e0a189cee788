/**
 * The WebSocket speech-synthesis client: request defaults, the retry loop
 * with its back-off delays, the network statistics and the health verdict
 * drawn from them, error classification, the receive loop that gathers
 * audio chunks, and the connection counters. The dialer, the socket, the
 * clock and the identifiers in a request are inputs; times are in
 * milliseconds.
 */
module TtsWebSocket {
  import opened Wrappers
  import opened Text
  import AppConfig

  datatype TtsRequest = TtsRequest(text: string, voice: string, encoding: string, cluster: string)
  datatype TtsResponse = TtsResponse(audioData: seq<byte>, error: string, finished: bool)

  const MaxRetries := 3
  const MaxReconnectAttempts := 3
  const MaxAudioSize := 50 * 1024 * 1024
  const SecondMs := 1000

  // ------------------------------------------------------ classification

  /** `VoiceToCluster`: cloned voices, named "S_" and something more, use the ICL cluster. */
  function VoiceToCluster(voice: string): (r: string)
    ensures r == "volcano_icl" <==> ByteLen(voice) > 2 && HasPrefix(voice, "S_")
    ensures r == "volcano_icl" || r == "volcano_tts"
  {
    if ByteLen(voice) > 2 && HasPrefix(voice, "S_") then "volcano_icl" else "volcano_tts"
  }

  /** "S_" alone is an ordinary voice; "S_" followed by anything is a cloned one. */
  lemma VoiceToClusterPrefix(rest: string)
    ensures VoiceToCluster("S_") == "volcano_tts"
    ensures |rest| > 0 ==> VoiceToCluster("S_" + rest) == "volcano_icl"
  {
    assert ByteLen("S_") == ByteLen("S") + 1 by {
      assert "S_"[..1] == "S";
    }
    assert ByteLen("S") == ByteLen("") + 1 by {
      assert "S"[..0] == "";
    }
    if |rest| > 0 {
      assert ("S_" + rest)[..2] == "S_";
    }
  }

  /** `isConnectionError` (defined next to the connection pool): nothing is not an error; otherwise the message names the connection. */
  function IsConnectionError(err: Option<string>): (r: bool)
    ensures err.None? ==> !r
  {
    match err
    case None => false
    case Some(e) =>
      Contains(e, "connection") || Contains(e, "websocket") || Contains(e, "bad MASK") || Contains(e, "closed network")
  }

  /** The markers `isConnectionError` looks for, case-sensitively. */
  const ConnectionMarkers: seq<string> := ["connection", "websocket", "bad MASK", "closed network"]

  /** A message is a connection error exactly when it contains one of the markers. */
  lemma ConnectionErrorIff(e: string)
    ensures IsConnectionError(Some(e)) <==> ContainsAny(e, ConnectionMarkers)
  {
    if Contains(e, "connection") { assert Contains(e, ConnectionMarkers[0]); }
    else if Contains(e, "websocket") { assert Contains(e, ConnectionMarkers[1]); }
    else if Contains(e, "bad MASK") { assert Contains(e, ConnectionMarkers[2]); }
    else if Contains(e, "closed network") { assert Contains(e, ConnectionMarkers[3]); }
  }

  lemma {:induction false} ContainsUnderPrefix(prefix: string, e: string, t: string)
    requires Contains(e, t)
    ensures Contains(prefix + e, t)
    decreases |prefix|
  {
    if |prefix| > 0 {
      assert (prefix + e)[1..] == prefix[1..] + e;
      ContainsUnderPrefix(prefix[1..], e, t);
    } else {
      assert prefix + e == e;
    }
  }

  lemma ContainsChar(s: string, t: string, c: char)
    requires Contains(s, t) && c in t
    ensures c in s
  {
    ContainsAt(s, t);
    var i :| OccursAt(s, t, i);
    var j :| 0 <= j < |t| && t[j] == c;
    assert s[i..i + |t|][j] == c;
  }

  /** An error wrapped with more text in front is still a connection error, so a lost connection seen while reading is retried. */
  lemma ConnectionErrorSurvivesWrapping(prefix: string, e: string)
    requires IsConnectionError(Some(e))
    ensures IsConnectionError(Some(prefix + e))
  {
    if Contains(e, "connection") { ContainsUnderPrefix(prefix, e, "connection"); }
    else if Contains(e, "websocket") { ContainsUnderPrefix(prefix, e, "websocket"); }
    else if Contains(e, "bad MASK") { ContainsUnderPrefix(prefix, e, "bad MASK"); }
    else { ContainsUnderPrefix(prefix, e, "closed network"); }
  }

  /** `isTimeoutError`: the message mentions a timeout or an exceeded deadline. */
  function IsTimeoutError(err: Option<string>): (r: bool)
    ensures err.None? ==> !r
  {
    match err
    case None => false
    case Some(e) => Contains(e, "timeout") || Contains(e, "i/o timeout") || Contains(e, "deadline exceeded")
  }

  /** The "i/o timeout" test adds nothing: such a message already contains "timeout". */
  lemma TimeoutErrorExact(e: string)
    ensures IsTimeoutError(Some(e)) <==> Contains(e, "timeout") || Contains(e, "deadline exceeded")
  {
    if Contains(e, "i/o timeout") {
      ContainsAt(e, "i/o timeout");
      var i :| OccursAt(e, "i/o timeout", i);
      assert e[i + 4..i + 11] == "i/o timeout"[4..];
      assert OccursAt(e, "timeout", i + 4);
      ContainsAt(e, "timeout");
    }
  }

  // ------------------------------------------------------------ requests

  /** The defaults filled into a request before it is sent; the cluster follows the voice chosen. */
  function FillDefaults(req: TtsRequest): (r: TtsRequest)
    ensures r.text == req.text
    ensures r.voice == if req.voice == "" then AppConfig.DefaultVoice else req.voice
    ensures r.encoding == if req.encoding == "" then AppConfig.DefaultEncoding else req.encoding
    ensures r.cluster == if req.cluster == "" then VoiceToCluster(r.voice) else req.cluster
    ensures r.voice != "" && r.encoding != "" && r.cluster != ""
  {
    var voice := if req.voice == "" then AppConfig.DefaultVoice else req.voice;
    var encoding := if req.encoding == "" then AppConfig.DefaultEncoding else req.encoding;
    var cluster := if req.cluster == "" then VoiceToCluster(voice) else req.cluster;
    TtsRequest(req.text, voice, encoding, cluster)
  }

  /** A retried request is filled again; nothing changes the second time. */
  lemma FillDefaultsIdempotent(req: TtsRequest)
    ensures FillDefaults(FillDefaults(req)) == FillDefaults(req)
  {
  }

  /** A request with nothing but text goes to the default voice's ordinary cluster. */
  lemma DefaultRequest(text: string)
    ensures FillDefaults(TtsRequest(text, "", "", "")) == TtsRequest(text, AppConfig.DefaultVoice, AppConfig.DefaultEncoding, "volcano_tts")
  {
    assert AppConfig.DefaultVoice[0] == 'z';
    assert !HasPrefix(AppConfig.DefaultVoice, "S_");
  }

  /** The JSON body of one request; `uid` and `reqid` are the fresh UUIDs. */
  datatype Payload = Payload(
    appid: string, token: string, cluster: string, uid: string,
    voiceType: string, encoding: string,
    reqid: string, text: string, operation: string, withTimestamp: string, extraParam: string)

  /** The request body: the credentials, the filled request, a "submit" operation with timestamps and the markdown filter left on. */
  function BuildPayload(appID: string, accessToken: string, req: TtsRequest, uid: string, reqid: string): (p: Payload)
    ensures var f := FillDefaults(req);
            p.cluster == f.cluster && p.voiceType == f.voice && p.encoding == f.encoding && p.text == req.text
    ensures p.appid == appID && p.token == accessToken && p.operation == "submit" && p.withTimestamp == "1"
    ensures p.extraParam == "{\"disable_markdown_filter\":false}"
  {
    var f := FillDefaults(req);
    Payload(appID, accessToken, f.cluster, uid, f.voice, f.encoding, reqid, f.text, "submit", "1",
            "{\"disable_markdown_filter\":false}")
  }

  // ------------------------------------------------------------- back-off

  /** The wait before retry `n + 1`: `2^n` seconds plus `n` half-seconds of jitter. */
  function BackoffMs(n: nat): (d: nat)
    ensures d >= SecondMs
  {
    Pow2(n) * SecondMs + n * 500
  }

  /** Each wait is longer than the one before, and the three waits are 1 s, 2.5 s and 5 s. */
  lemma BackoffGrows(n: nat)
    ensures BackoffMs(n) < BackoffMs(n + 1)
    ensures BackoffMs(0) == 1000 && BackoffMs(1) == 2500 && BackoffMs(2) == 5000
  {
  }

  // --------------------------------------------------------- the receive fold

  /** One read from the socket. */
  datatype Received =
    | FrontEndResult(payload: seq<byte>)
    | AudioOnly(payload: seq<byte>, sequence: int)
    | ServerError(message: string)
    | UnknownMessage(payload: seq<byte>)
    | ReadFailed(error: string)

  /** What the read deadline gives once the server has nothing more to send. */
  const ReadTimeout := "i/o timeout"

  /**
   * A read that times out counts as a timeout in the statistics but is not
   * a connection error, so it is not retried.
   */
  lemma ReadTimeoutNotRetried()
    ensures IsTimeoutError(Some("failed to receive message: " + ReadTimeout))
    ensures !IsConnectionError(Some("failed to receive message: " + ReadTimeout))
  {
    var w := "failed to receive message: " + ReadTimeout;
    assert OccursAt(w, "timeout", 31);
    ContainsAt(w, "timeout");
    assert 'n' !in w;
    assert 'w' !in w;
    assert 'M' !in w;
    if Contains(w, "connection") { ContainsChar(w, "connection", 'n'); }
    if Contains(w, "websocket") { ContainsChar(w, "websocket", 'w'); }
    if Contains(w, "bad MASK") { ContainsChar(w, "bad MASK", 'M'); }
    if Contains(w, "closed network") { ContainsChar(w, "closed network", 'n'); }
  }

  datatype Received2 = Received2(response: Result<TtsResponse>, connectionLost: bool)

  /**
   * `receiveResponseUnsafe` from read `i` on with `acc` gathered: a
   * cancelled context fails at once; a failed read fails, and loses the
   * connection when it is a connection error; audio chunks are appended and
   * may not exceed 50 MiB in total; an audio chunk with a negative sequence
   * ends the response; a server error fails; anything else is skipped.
   * Reading past the last message is a read timeout.
   */
  function Receive(items: seq<Received>, i: nat, acc: seq<byte>, cancelled: bool): (r: Received2)
    requires i <= |items|
    requires |acc| <= MaxAudioSize
    ensures r.response.Ok? ==> r.response.value.finished && r.response.value.error == ""
    ensures r.response.Ok? ==> |r.response.value.audioData| <= MaxAudioSize
    ensures r.response.Ok? ==> acc <= r.response.value.audioData
    ensures r.connectionLost ==> r.response.Err?
    decreases |items| - i
  {
    if cancelled then Received2(Err("context cancelled"), false)
    else if i == |items| then Received2(Err("failed to receive message: " + ReadTimeout), false)
    else match items[i]
      case ReadFailed(e) =>
        Received2(Err("failed to receive message: " + e), IsConnectionError(Some(e)))
      case AudioOnly(payload, sequence) =>
        var total := acc + payload;
        if |total| > MaxAudioSize then Received2(Err("audio data too large: " + Itoa(|total|) + " bytes"), false)
        else if sequence < 0 then Received2(Ok(TtsResponse(total, "", true)), false)
        else
          var r := Receive(items, i + 1, total, cancelled);
          assert acc <= total;
          r
      case ServerError(m) => Received2(Err("server error: " + m), false)
      case _ => Receive(items, i + 1, acc, cancelled)
  }

  /** The audio chunks of `items[i..j]`, in order. */
  function AudioOf(items: seq<Received>, i: nat, j: nat): seq<byte>
    requires i <= j <= |items|
    decreases j - i
  {
    if i == j then []
    else (if items[i].AudioOnly? then items[i].payload else []) + AudioOf(items, i + 1, j)
  }

  /** Whether `items[i..j]` holds only skipped messages and audio chunks that do not end the response. */
  predicate Continuing(items: seq<Received>, i: nat, j: nat)
    requires i <= j <= |items|
  {
    forall k :: i <= k < j ==> items[k].FrontEndResult? || items[k].UnknownMessage? || (items[k].AudioOnly? && items[k].sequence >= 0)
  }

  /** The audio a message adds: an audio chunk's payload, nothing for any other message. */
  function ChunkAt(items: seq<Received>, i: nat): seq<byte>
    requires i < |items|
  {
    if items[i].AudioOnly? then items[i].payload else []
  }

  /** The first chunk of a range comes first, with `acc` in front. */
  lemma AudioOfFront(items: seq<Received>, i: nat, j: nat, acc: seq<byte>)
    requires i < j <= |items|
    ensures acc + AudioOf(items, i, j) == (acc + ChunkAt(items, i)) + AudioOf(items, i + 1, j)
  {
    assert AudioOf(items, i, j) == ChunkAt(items, i) + AudioOf(items, i + 1, j);
  }

  /** A message that neither fails nor ends the response adds its chunk and moves on. */
  lemma ReceivePasses(items: seq<Received>, i: nat, acc: seq<byte>)
    requires i < |items| && (items[i].FrontEndResult? || items[i].UnknownMessage? || (items[i].AudioOnly? && items[i].sequence >= 0))
    requires |acc + ChunkAt(items, i)| <= MaxAudioSize
    ensures |acc| <= MaxAudioSize
    ensures Receive(items, i, acc, false) == Receive(items, i + 1, acc + ChunkAt(items, i), false)
  {
    if !items[i].AudioOnly? {
      assert acc + ChunkAt(items, i) == acc;
    }
  }

  /**
   * The response is every audio chunk, in order, up to the one that ends it,
   * provided nothing fails on the way and the total stays within 50 MiB.
   */
  lemma {:induction false} ReceiveGathersAudio(items: seq<Received>, i: nat, acc: seq<byte>, e: nat)
    requires i <= e < |items| && items[e].AudioOnly? && items[e].sequence < 0
    requires Continuing(items, i, e)
    requires |acc + AudioOf(items, i, e + 1)| <= MaxAudioSize
    ensures Receive(items, i, acc, false) == Received2(Ok(TtsResponse(acc + AudioOf(items, i, e + 1), "", true)), false)
    decreases e - i
  {
    AudioOfFront(items, i, e + 1, acc);
    var next := acc + ChunkAt(items, i);
    assert |next| <= MaxAudioSize;
    if i < e {
      ReceivePasses(items, i, acc);
      ReceiveGathersAudio(items, i + 1, next, e);
    } else {
      assert AudioOf(items, i + 1, e + 1) == [];
      assert acc + AudioOf(items, i, e + 1) == next;
    }
  }

  /** A server error before the response ends fails the receive. */
  lemma {:induction false} ReceiveServerErrorFails(items: seq<Received>, i: nat, acc: seq<byte>, e: nat)
    requires i <= e < |items| && items[e].ServerError?
    requires Continuing(items, i, e)
    requires |acc + AudioOf(items, i, e)| <= MaxAudioSize
    ensures Receive(items, i, acc, false).response == Err("server error: " + items[e].message)
    decreases e - i
  {
    if i < e {
      AudioOfFront(items, i, e, acc);
      var next := acc + ChunkAt(items, i);
      assert |next| <= MaxAudioSize;
      ReceivePasses(items, i, acc);
      ReceiveServerErrorFails(items, i + 1, next, e);
    }
  }

  // ------------------------------------------------------------ the client

  /** The verdict of `getNetworkHealth`. */
  datatype HealthReason = NoRequestsYet | HighFailureRate | HighTimeoutRate | RecentFailures | NetworkHealthy

  /** The inputs of one pass through `sendTTSRequestWithRetry`. */
  datatype Attempt = Attempt(
    now: int, pingOk: bool, dial: Outcome, send: Outcome, messages: seq<Received>, responseTime: nat)

  /** How one pass of the retry loop ends. */
  datatype Step = Finish(result: Result<TtsResponse>) | RetryWith(req: TtsRequest)

  /** `connectUnsafe`'s error after its `n`th failed dial in a row. */
  function ConnectError(n: int, maxAttempts: int, dialError: string): (e: string)
    ensures HasSuffix(e, "): " + dialError)
  {
    var head := "failed to connect to WebSocket (attempt " + Itoa(n) + "/" + Itoa(maxAttempts);
    ConcatAffixes(head, "): " + dialError);
    head + ("): " + dialError)
  }

  /** The error of a pass that fails to connect with no retry left. */
  function GiveUpError(connectError: string): (e: string)
    ensures HasPrefix(e, "连接失败，已达到最大重试次数: ") && HasSuffix(e, connectError)
  {
    ConcatAffixes("连接失败，已达到最大重试次数: ", connectError);
    "连接失败，已达到最大重试次数: " + connectError
  }

  /**
   * The errors a pass with inputs `a` can end with: its failed dial, with
   * the reconnect count it had reached, its failed send, or its receive's
   * error.
   */
  ghost predicate PassError(a: Attempt, e: string, cancelled: bool, maxAttempts: int) {
    || (a.dial.Fail? && exists n: int :: e == GiveUpError(ConnectError(n, maxAttempts, a.dial.error)))
    || (a.send.Fail? && e == "failed to send request: " + a.send.error)
    || Receive(a.messages, 0, [], cancelled).response == Err(e)
  }

  class Client {
    const appID: string
    const accessToken: string
    const endpoint: string
    const maxReconnectAttempts: int
    var hasConn: bool
    var connected: bool
    var cancelled: bool
    var lastPingTime: int
    var reconnectAttempts: nat
    var totalRequests: nat
    var failedRequests: nat
    var timeoutRequests: nat
    var lastFailureTime: Option<int>
    var avgResponseTime: nat
    var lastResponseTime: Option<int>

    /** Timeouts are failures and failures are requests; a connected client has a connection. */
    ghost predicate Valid()
      reads this
    {
      && timeoutRequests <= failedRequests <= totalRequests
      && (failedRequests > 0 ==> lastFailureTime.Some?)
      && (connected ==> hasConn)
    }

    /** `NewWebSocketTTSClient`. */
    constructor (appID: string, accessToken: string)
      ensures Valid() && this.appID == appID && this.accessToken == accessToken
      ensures endpoint == AppConfig.WSEndpoint && maxReconnectAttempts == MaxReconnectAttempts
      ensures !hasConn && !connected && !cancelled && reconnectAttempts == 0
      ensures totalRequests == 0 && failedRequests == 0 && timeoutRequests == 0 && avgResponseTime == 0
    {
      this.appID := appID;
      this.accessToken := accessToken;
      endpoint := AppConfig.WSEndpoint;
      maxReconnectAttempts := MaxReconnectAttempts;
      hasConn, connected, cancelled := false, false, false;
      lastPingTime := 0;
      reconnectAttempts := 0;
      totalRequests, failedRequests, timeoutRequests := 0, 0, 0;
      lastFailureTime, avgResponseTime, lastResponseTime := None, 0, None;
    }

    /** `isConnectionHealthy`: a connection, activity within the last 60 s and a ping that goes through. */
    predicate ConnectionHealthy(now: int, pingOk: bool)
      reads this
    {
      hasConn && now - lastPingTime <= 60 * SecondMs && pingOk
    }

    /** `IsConnected`. */
    predicate IsConnected(now: int, pingOk: bool)
      reads this
    {
      connected && ConnectionHealthy(now, pingOk)
    }

    /**
     * The checks of `isConnectionHealthy` each refuse on their own: no
     * connection, more than 60 s since the last activity, or a failed ping.
     * A client marked disconnected never reports connected.
     */
    lemma UnhealthyWhen(now: int, pingOk: bool)
      ensures !hasConn ==> !ConnectionHealthy(now, pingOk)
      ensures now - lastPingTime > 60 * SecondMs ==> !ConnectionHealthy(now, pingOk)
      ensures !pingOk ==> !ConnectionHealthy(now, pingOk)
      ensures !connected ==> !IsConnected(now, pingOk)
      ensures IsConnected(now, pingOk) ==> ConnectionHealthy(now, pingOk)
    {
    }

    /**
     * `getNetworkHealth`: healthy before any request; otherwise unhealthy
     * when more than half the requests failed, when more than 30% timed
     * out, or when the last failure is under 30 s old and there were more
     * than three.
     */
    function NetworkHealth(now: int): (h: (bool, HealthReason))
      reads this
      ensures totalRequests == 0 ==> h == (true, NoRequestsYet)
      ensures totalRequests > 0 ==>
        (!h.0 <==> 2 * failedRequests > totalRequests || 10 * timeoutRequests > 3 * totalRequests
                   || (lastFailureTime.Some? && now - lastFailureTime.value < 30 * SecondMs && failedRequests > 3))
    {
      if totalRequests == 0 then (true, NoRequestsYet)
      else if 2 * failedRequests > totalRequests then (false, HighFailureRate)
      else if 10 * timeoutRequests > 3 * totalRequests then (false, HighTimeoutRate)
      else if lastFailureTime.Some? && now - lastFailureTime.value < 30 * SecondMs && failedRequests > 3 then (false, RecentFailures)
      else (true, NetworkHealthy)
    }

    /**
     * `updateNetworkStats`: every call counts a request; a failure is
     * counted, with its time, and also as a timeout when it was one; a
     * success sets the average response time, to the first time seen or to
     * the mean of the old average and the new time.
     */
    method UpdateNetworkStats(success: bool, isTimeout: bool, responseTime: nat, now: int)
      requires Valid()
      modifies this`totalRequests, this`failedRequests, this`timeoutRequests, this`lastFailureTime,
               this`avgResponseTime, this`lastResponseTime
      ensures Valid()
      ensures totalRequests == old(totalRequests) + 1
      ensures failedRequests == old(failedRequests) + (if success then 0 else 1)
      ensures timeoutRequests == old(timeoutRequests) + (if !success && isTimeout then 1 else 0)
      ensures !success ==> lastFailureTime == Some(now) && avgResponseTime == old(avgResponseTime) && lastResponseTime == old(lastResponseTime)
      ensures success ==> lastFailureTime == old(lastFailureTime) && lastResponseTime == Some(now)
      ensures success ==> avgResponseTime == if old(avgResponseTime) == 0 then responseTime else (old(avgResponseTime) + responseTime) / 2
    {
      totalRequests := totalRequests + 1;
      if !success {
        failedRequests := failedRequests + 1;
        lastFailureTime := Some(now);
        if isTimeout {
          timeoutRequests := timeoutRequests + 1;
        }
      } else {
        if avgResponseTime == 0 {
          avgResponseTime := responseTime;
        } else {
          avgResponseTime := (avgResponseTime + responseTime) / 2;
        }
        lastResponseTime := Some(now);
      }
    }

    /**
     * `connectUnsafe`: nothing to do on a healthy connection; otherwise the
     * old connection is dropped and a new one dialled. A failed dial
     * counts a reconnect attempt; a successful one connects and resets the
     * count.
     */
    method ConnectUnsafe(now: int, pingOk: bool, dial: Outcome) returns (r: Outcome)
      requires Valid()
      modifies this`hasConn, this`connected, this`lastPingTime, this`reconnectAttempts
      ensures Valid()
      ensures old(IsConnected(now, pingOk)) ==> r.Pass? && unchanged(this)
      ensures !old(IsConnected(now, pingOk)) && dial.Fail? ==>
        && !connected && hasConn == old(hasConn) && reconnectAttempts == old(reconnectAttempts) + 1
        && r == Fail(ConnectError(reconnectAttempts, maxReconnectAttempts, dial.error))
      ensures !old(IsConnected(now, pingOk)) && dial.Pass? ==>
        r.Pass? && connected && hasConn && lastPingTime == now && reconnectAttempts == 0
    {
      if connected && ConnectionHealthy(now, pingOk) {
        return Pass;
      }
      if hasConn {
        connected := false;
      }
      if dial.Fail? {
        reconnectAttempts := reconnectAttempts + 1;
        return Fail(ConnectError(reconnectAttempts, maxReconnectAttempts, dial.error));
      }
      hasConn := true;
      connected := true;
      lastPingTime := now;
      reconnectAttempts := 0;
      r := Pass;
    }

    /**
     * `Disconnect`: nothing happens unless connected; otherwise the
     * context is cancelled for good and the connection closed. `close` is
     * what closing the socket returned.
     */
    method Disconnect(close: Outcome) returns (r: Outcome)
      requires Valid()
      modifies this`hasConn, this`connected, this`cancelled
      ensures Valid()
      ensures !old(connected) ==> r.Pass? && unchanged(this)
      ensures old(connected) ==> r == close && !connected && !hasConn && cancelled
      ensures forall t: int, p: bool :: !IsConnected(t, p)
    {
      if !connected || !hasConn {
        return Pass;
      }
      cancelled := true;
      connected := false;
      hasConn := false;
      r := close;
    }

    /** `receiveResponseUnsafe`: the read loop; a connection error on a read marks the client disconnected. */
    method ReceiveResponse(items: seq<Received>) returns (r: Result<TtsResponse>)
      requires Valid()
      modifies this`connected
      ensures Valid()
      ensures r == Receive(items, 0, [], cancelled).response
      ensures connected == (old(connected) && !Receive(items, 0, [], cancelled).connectionLost)
    {
      var audioData: seq<byte> := [];
      var i := 0;
      while true
        invariant 0 <= i <= |items| && |audioData| <= MaxAudioSize && connected == old(connected)
        invariant Receive(items, i, audioData, cancelled) == Receive(items, 0, [], cancelled)
        decreases |items| - i
      {
        if cancelled {
          return Err("context cancelled");
        }
        if i == |items| {
          return Err("failed to receive message: " + ReadTimeout);
        }
        var msg := items[i];
        match msg {
          case ReadFailed(e) =>
            if IsConnectionError(Some(e)) {
              connected := false;
            }
            return Err("failed to receive message: " + e);
          case AudioOnly(payload, sequence) =>
            audioData := audioData + payload;
            if |audioData| > MaxAudioSize {
              return Err("audio data too large: " + Itoa(|audioData|) + " bytes");
            }
            if sequence < 0 {
              return Ok(TtsResponse(audioData, "", true));
            }
          case ServerError(m) =>
            return Err("server error: " + m);
          case FrontEndResult(_) =>
          case UnknownMessage(_) =>
        }
        i := i + 1;
      }
    }

    /**
     * The second half of a pass, once connected: send the filled request,
     * receive, and record the outcome. A connection error while sending or
     * receiving while retries remain marks the connection unhealthy and
     * asks for another pass; any other failure ends the request with its
     * error. A failed send is not counted in the statistics.
     */
    method SendAndReceive(filled: TtsRequest, retryCount: nat, a: Attempt) returns (s: Step)
      requires Valid() && retryCount <= MaxRetries
      modifies this`connected, this`totalRequests, this`failedRequests, this`timeoutRequests, this`lastFailureTime,
               this`avgResponseTime, this`lastResponseTime
      ensures Valid()
      ensures s.RetryWith? ==> s.req == filled && !connected
      ensures a.send.Fail? ==>
        && totalRequests == old(totalRequests) && failedRequests == old(failedRequests)
        && (s.RetryWith? <==> IsConnectionError(Some(a.send.error)) && retryCount < MaxRetries)
        && (s.Finish? ==> s.result == Err("failed to send request: " + a.send.error))
      ensures a.send.Pass? ==>
        var received := Receive(a.messages, 0, [], cancelled).response;
        && totalRequests == old(totalRequests) + 1
        && failedRequests == old(failedRequests) + (if received.Ok? then 0 else 1)
        && (s.RetryWith? <==> received.Err? && IsConnectionError(Some(received.error)) && retryCount < MaxRetries)
        && (s.Finish? ==> s.result == received)
    {
      if a.send.Fail? {
        if IsConnectionError(Some(a.send.error)) && retryCount < MaxRetries {
          connected := false;
          return RetryWith(filled);
        }
        return Finish(Err("failed to send request: " + a.send.error));
      }
      ghost var received := Receive(a.messages, 0, [], cancelled).response;
      ghost var failedBefore := failedRequests;
      var response := ReceiveResponse(a.messages);
      assert response == received;
      if response.Err? {
        var retry := IsConnectionError(Some(response.error)) && retryCount < MaxRetries;
        UpdateNetworkStats(false, IsTimeoutError(Some(response.error)), a.responseTime, a.now);
        assert failedRequests == failedBefore + 1;
        if retry {
          connected := false;
          return RetryWith(filled);
        }
        return Finish(response);
      }
      UpdateNetworkStats(true, false, a.responseTime, a.now);
      assert failedRequests == failedBefore;
      s := Finish(response);
    }

    /**
     * One pass of `sendTTSRequestWithRetry` at retry `retryCount`:
     * (re)connect when the connection is not healthy, fill the defaults,
     * then send and receive. A failed connect while retries and reconnect
     * attempts remain asks for another pass with the same request; without
     * either it ends the request with the connect error.
     */
    method TryOnce(req: TtsRequest, retryCount: nat, a: Attempt) returns (s: Step)
      requires Valid() && retryCount <= MaxRetries
      modifies this`hasConn, this`connected, this`lastPingTime, this`reconnectAttempts,
               this`totalRequests, this`failedRequests, this`timeoutRequests, this`lastFailureTime,
               this`avgResponseTime, this`lastResponseTime
      ensures Valid()
      ensures s.RetryWith? ==> retryCount < MaxRetries && FillDefaults(s.req) == FillDefaults(req)
      ensures s.Finish? && s.result.Err? ==> PassError(a, s.result.error, cancelled, maxReconnectAttempts)
      ensures old(!IsConnected(a.now, a.pingOk)) && a.dial.Fail? ==>
        && reconnectAttempts == old(reconnectAttempts) + 1 && totalRequests == old(totalRequests)
        && (s.RetryWith? <==> retryCount < MaxRetries && reconnectAttempts <= maxReconnectAttempts)
        && (s.RetryWith? ==> s.req == req)
        && (s.Finish? ==> s.result == Err(GiveUpError(ConnectError(reconnectAttempts, maxReconnectAttempts, a.dial.error))))
      ensures !(old(!IsConnected(a.now, a.pingOk)) && a.dial.Fail?) && a.send.Fail? ==>
        && totalRequests == old(totalRequests)
        && (s.RetryWith? <==> IsConnectionError(Some(a.send.error)) && retryCount < MaxRetries)
        && (s.RetryWith? ==> s.req == FillDefaults(req) && !connected)
        && (s.Finish? ==> s.result == Err("failed to send request: " + a.send.error))
      ensures !(old(!IsConnected(a.now, a.pingOk)) && a.dial.Fail?) && a.send.Pass? ==>
        var received := Receive(a.messages, 0, [], cancelled).response;
        && totalRequests == old(totalRequests) + 1
        && failedRequests == old(failedRequests) + (if received.Ok? then 0 else 1)
        && (s.RetryWith? <==> received.Err? && IsConnectionError(Some(received.error)) && retryCount < MaxRetries)
        && (s.RetryWith? ==> s.req == FillDefaults(req) && !connected)
        && (s.Finish? ==> s.result == received)
      ensures s.Finish? && s.result.Ok? <==>
        !(old(!IsConnected(a.now, a.pingOk)) && a.dial.Fail?) && a.send.Pass? && Receive(a.messages, 0, [], cancelled).response.Ok?
    {
      if !connected || !ConnectionHealthy(a.now, a.pingOk) {
        var err := ConnectUnsafe(a.now, a.pingOk, a.dial);
        if err.Fail? {
          if retryCount < MaxRetries && reconnectAttempts <= maxReconnectAttempts {
            return RetryWith(req);
          }
          var e := GiveUpError(ConnectError(reconnectAttempts, maxReconnectAttempts, a.dial.error));
          assert PassError(a, e, cancelled, maxReconnectAttempts);
          return Finish(Err(e));
        }
      }
      FillDefaultsIdempotent(req);
      s := SendAndReceive(FillDefaults(req), retryCount, a);
    }

    /**
     * `sendTTSRequestWithRetry` from retry `retryCount` on: passes until one
     * finishes, at most `MaxRetries` retries in all, waiting
     * `BackoffMs(n)` before retry `n + 1`. `attempts[n]` holds pass `n`'s
     * inputs; `delays` lists the waits. The result is that of the last pass.
     */
    method SendTTSRequestWithRetry(req: TtsRequest, retryCount: nat, attempts: seq<Attempt>)
      returns (r: Result<TtsResponse>, delays: seq<nat>)
      requires Valid() && retryCount <= MaxRetries < |attempts|
      modifies this`hasConn, this`connected, this`lastPingTime, this`reconnectAttempts,
               this`totalRequests, this`failedRequests, this`timeoutRequests, this`lastFailureTime,
               this`avgResponseTime, this`lastResponseTime
      ensures Valid()
      ensures retryCount + |delays| <= MaxRetries
      ensures forall k :: 0 <= k < |delays| ==> delays[k] == BackoffMs(retryCount + k)
      ensures r.Ok? ==> r == Receive(attempts[retryCount + |delays|].messages, 0, [], cancelled).response
      ensures r.Ok? ==> attempts[retryCount + |delays|].send.Pass? && r.value.finished && |r.value.audioData| <= MaxAudioSize
      ensures r.Err? ==> PassError(attempts[retryCount + |delays|], r.error, cancelled, maxReconnectAttempts)
      ensures old(totalRequests) <= totalRequests <= old(totalRequests) + |delays| + 1
      decreases MaxRetries - retryCount
    {
      var s := TryOnce(req, retryCount, attempts[retryCount]);
      if s.Finish? {
        return s.result, [];
      }
      var rest;
      r, rest := SendTTSRequestWithRetry(s.req, retryCount + 1, attempts);
      delays := [BackoffMs(retryCount)] + rest;
    }
  }

  /**
   * `TTSWebSocketWithOptions` (and `TTSWebSocket`, which passes the default
   * voice and encoding): a fresh client, one request with retries, the
   * client disconnected afterwards; the audio of a successful response.
   */
  method TTSWebSocketWithOptions(appID: string, accessToken: string, text: string, voice: string, encoding: string,
                                 attempts: seq<Attempt>, close: Outcome)
    returns (r: Result<seq<byte>>)
    requires MaxRetries < |attempts|
    ensures r.Ok? ==> |r.value| <= MaxAudioSize
    ensures r.Ok? ==> exists k :: 0 <= k <= MaxRetries && attempts[k].send.Pass?
                                  && Receive(attempts[k].messages, 0, [], false).response == Ok(TtsResponse(r.value, "", true))
    ensures r.Err? ==> exists k :: 0 <= k <= MaxRetries && PassError(attempts[k], r.error, false, MaxReconnectAttempts)
  {
    var client := new Client(appID, accessToken);
    var resp, delays := client.SendTTSRequestWithRetry(TtsRequest(text, voice, encoding, ""), 0, attempts);
    var _ := client.Disconnect(close);
    if resp.Err? {
      return Err(resp.error);
    }
    // A received response never carries an error text, so the "TTS error: " branch cannot be taken.
    assert resp.value.error == "";
    r := Ok(resp.value.audioData);
  }
}
