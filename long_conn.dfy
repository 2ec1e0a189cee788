/**
 * The long-connection client's bookkeeping: connection state, sequence-id
 * stamping, authentication flag, reconnect counter and connection-quality
 * counters, plus the rules that classify read errors. The socket itself is
 * outside the model: whether a dial or a write succeeded is a parameter.
 */
module LongConn {
  import opened Wrappers
  import opened Text
  import opened Frame

  // ------------------------------------------------------------ states

  const StateDisconnected: int := 0
  const StateConnecting: int := 1
  const StateConnected: int := 2
  const StateReconnecting: int := 3
  const StateShuttingDown: int := 4

  const MaxReconnects: int := 10

  /** `ConnectionState.String`. */
  function StateName(s: int): (name: string)
  {
    if s == StateDisconnected then "Disconnected"
    else if s == StateConnecting then "Connecting"
    else if s == StateConnected then "Connected"
    else if s == StateReconnecting then "Reconnecting"
    else if s == StateShuttingDown then "ShuttingDown"
    else "Unknown"
  }

  /** The five states have five distinct names, and every other value is "Unknown". */
  lemma StateNamesDistinct(a: int, b: int)
    requires 0 <= a <= 4 && 0 <= b <= 4 && a != b
    ensures StateName(a) != StateName(b) && StateName(a) != "Unknown"
  {
  }

  lemma StateNameUnknown(s: int)
    ensures StateName(s) == "Unknown" <==> !(0 <= s <= 4)
  {
  }

  // ---------------------------------------------------- int32 sequence ids

  /** Go's `x++` on an `int32`: wraps from the maximum to the minimum. */
  function Inc32(x: int): (r: int)
    requires IsInt32(x)
    ensures IsInt32(r) && (r - x - 1) % Two32 == 0
  {
    if x == 0x7FFF_FFFF then -0x8000_0000 else x + 1
  }

  // ---------------------------------------------------- quality counters

  /** The counters of `ConnectionQuality` plus the consecutive-error pair. */
  datatype Quality = Quality(totalConnections: int, successfulConnects: int, failedConnects: int,
                             abnormalClosures: int, timeoutErrors: int, networkErrors: int,
                             reconnectAttempts: int, consecutiveErrors: int, maxConsecutiveErrors: int)

  const EvConnectAttempt: string := "connect_attempt"
  const EvConnectSuccess: string := "connect_success"
  const EvConnectFailed: string := "connect_failed"
  const EvDisconnect: string := "disconnect"
  const EvAbnormalClosure: string := "abnormal_closure"
  const EvTimeoutError: string := "timeout_error"
  const EvNetworkError: string := "network_error"
  const EvReconnectAttempt: string := "reconnect_attempt"

  predicate IsErrorEvent(ev: string) {
    ev == EvConnectFailed || ev == EvAbnormalClosure || ev == EvTimeoutError || ev == EvNetworkError
  }

  predicate QualityValid(q: Quality) {
    0 <= q.consecutiveErrors <= q.maxConsecutiveErrors
  }

  /** `updateConnectionQuality`, without the timestamps. */
  function UpdateQuality(q: Quality, ev: string): (r: Quality)
  {
    var q1 :=
      if ev == EvConnectAttempt then q.(totalConnections := q.totalConnections + 1)
      else if ev == EvConnectSuccess then q.(successfulConnects := q.successfulConnects + 1, consecutiveErrors := 0)
      else if ev == EvConnectFailed then q.(failedConnects := q.failedConnects + 1, consecutiveErrors := q.consecutiveErrors + 1)
      else if ev == EvAbnormalClosure then q.(abnormalClosures := q.abnormalClosures + 1, consecutiveErrors := q.consecutiveErrors + 1)
      else if ev == EvTimeoutError then q.(timeoutErrors := q.timeoutErrors + 1, consecutiveErrors := q.consecutiveErrors + 1)
      else if ev == EvNetworkError then q.(networkErrors := q.networkErrors + 1, consecutiveErrors := q.consecutiveErrors + 1)
      else if ev == EvReconnectAttempt then q.(reconnectAttempts := q.reconnectAttempts + 1)
      else q;
    if q1.consecutiveErrors > q1.maxConsecutiveErrors then q1.(maxConsecutiveErrors := q1.consecutiveErrors) else q1
  }

  /**
   * The quality events of one `connect`: an attempt, then a failure for a
   * failed dial; a success for a dial whose auth frame is written; a
   * success, the disconnect and a failure when that write fails.
   */
  function ConnectQuality(q: Quality, dialOk: bool, authWriteOk: bool): (r: Quality)
    ensures r.totalConnections == q.totalConnections + 1
    ensures r.successfulConnects == q.successfulConnects + (if dialOk then 1 else 0)
    ensures r.failedConnects == q.failedConnects + (if dialOk && authWriteOk then 0 else 1)
    ensures r.consecutiveErrors == (if !dialOk then q.consecutiveErrors + 1 else if authWriteOk then 0 else 1)
    ensures r.reconnectAttempts == q.reconnectAttempts
  {
    var attempt := UpdateQuality(q, EvConnectAttempt);
    if !dialOk then UpdateQuality(attempt, EvConnectFailed)
    else if authWriteOk then UpdateQuality(attempt, EvConnectSuccess)
    else UpdateQuality(UpdateQuality(UpdateQuality(attempt, EvConnectSuccess), EvDisconnect), EvConnectFailed)
  }

  /** After every update the running maximum dominates the current run, and neither shrinks below it. */
  lemma UpdateKeepsMax(q: Quality, ev: string)
    ensures UpdateQuality(q, ev).maxConsecutiveErrors >= UpdateQuality(q, ev).consecutiveErrors
    ensures UpdateQuality(q, ev).maxConsecutiveErrors >= q.maxConsecutiveErrors
    ensures QualityValid(q) ==> QualityValid(UpdateQuality(q, ev))
  {
  }

  /** A success resets the run of errors and counts one success. */
  lemma UpdateSuccess(q: Quality)
    ensures UpdateQuality(q, EvConnectSuccess).consecutiveErrors == 0
    ensures UpdateQuality(q, EvConnectSuccess).successfulConnects == q.successfulConnects + 1
  {
  }

  /** Each of the four error events bumps its own counter and the run by exactly one. */
  lemma UpdateErrorEvent(q: Quality, ev: string)
    requires IsErrorEvent(ev)
    ensures UpdateQuality(q, ev).consecutiveErrors == q.consecutiveErrors + 1
    ensures var r := UpdateQuality(q, ev);
      r.failedConnects + r.abnormalClosures + r.timeoutErrors + r.networkErrors
      == q.failedConnects + q.abnormalClosures + q.timeoutErrors + q.networkErrors + 1
    ensures var r := UpdateQuality(q, ev);
      && (ev == EvConnectFailed <==> r.failedConnects == q.failedConnects + 1)
      && (ev == EvAbnormalClosure <==> r.abnormalClosures == q.abnormalClosures + 1)
      && (ev == EvTimeoutError <==> r.timeoutErrors == q.timeoutErrors + 1)
      && (ev == EvNetworkError <==> r.networkErrors == q.networkErrors + 1)
  {
  }

  /** An event name outside the switch changes no counter (the maximum only catches up). */
  lemma UpdateUnknownEvent(q: Quality, ev: string)
    requires ev !in {EvConnectAttempt, EvConnectSuccess, EvConnectFailed, EvDisconnect,
                     EvAbnormalClosure, EvTimeoutError, EvNetworkError, EvReconnectAttempt}
    requires QualityValid(q)
    ensures UpdateQuality(q, ev) == q
  {
  }

  /** "disconnect" only touches timestamps, which are not modelled. */
  lemma UpdateDisconnect(q: Quality)
    requires QualityValid(q)
    ensures UpdateQuality(q, EvDisconnect) == q
  {
  }

  // ------------------------------------------------------ error classes

  /**
   * The errors the client inspects. `msg` is what `err.Error()` returns;
   * `CloseError` is gorilla/websocket's `*CloseError`, `NetError` a value
   * implementing `net.Error`, `Eof` is `io.EOF` itself.
   */
  datatype WsError =
    | NoError
    | Eof
    | CloseError(code: int, text: string, msg: string)
    | NetError(msg: string, temporary: bool, timeout: bool)
    | Other(msg: string)
  {
    function Message(): string {
      match this
      case NoError => ""
      case Eof => "EOF"
      case CloseError(_, _, m) => m
      case NetError(m, _, _) => m
      case Other(m) => m
    }
  }

  const CloseNormalClosure: int := 1000
  const CloseGoingAway: int := 1001
  const CloseUnsupportedData: int := 1003
  const CloseNoStatusReceived: int := 1005
  const CloseAbnormalClosure: int := 1006
  const ClosePolicyViolation: int := 1008

  const EofPatterns: seq<string> := [
    "unexpected eof", "connection reset by peer", "broken pipe",
    "use of closed network connection", "connection refused", "network is unreachable",
    "no route to host", "connection timed out", "connection aborted",
    "wsaconnreset", "wsaconnaborted", "wsaeconnreset", "wsaeconnaborted"
  ]

  /** `isEOFError`. */
  function IsEofError(err: WsError): (r: bool)
  {
    if err.NoError? then false
    else if err.Eof? then true
    else if ContainsAny(ToLower(err.Message()), EofPatterns) then true
    else if err.NetError? then err.temporary
    else false
  }

  /** `isEOFError` is true exactly for io.EOF, a message matching a pattern, or a temporary net error. */
  lemma IsEofErrorCases(err: WsError)
    ensures IsEofError(err) <==>
      !err.NoError? && (err.Eof? || ContainsAny(ToLower(err.Message()), EofPatterns) || (err.NetError? && err.temporary))
  {
  }

  /** Matching is case-insensitive: a message in upper case is classified like its lower-case form. */
  lemma {:induction false} IsEofErrorCaseInsensitive(m: string)
    ensures IsEofError(Other(m)) == IsEofError(Other(ToLower(m)))
  {
    assert ToLower(ToLower(m)) == ToLower(m);
  }

  /** `shouldAttemptReconnect`, given the current run of consecutive errors. */
  function ShouldAttemptReconnect(err: WsError, consecutiveErrors: int): (r: bool)
  {
    if consecutiveErrors > 10 then false
    else if err.CloseError? then
      if err.code == ClosePolicyViolation || err.code == CloseUnsupportedData then false
      else if err.code == CloseAbnormalClosure then IsEofError(err) || Contains(err.text, "unexpected EOF")
      else true
    else if err.NetError? then err.temporary || err.timeout
    else true
  }

  /**
   * The client gives up on a run of more than ten errors and on close codes
   * 1008 and 1003 (section 7.4.1 of RFC 6455); it retries a 1006 only when the
   * error looks like an EOF; everything else is retried.
   */
  lemma ShouldAttemptReconnectRules(err: WsError, n: int)
    ensures n > 10 ==> !ShouldAttemptReconnect(err, n)
    ensures err.CloseError? && err.code in {ClosePolicyViolation, CloseUnsupportedData} ==> !ShouldAttemptReconnect(err, n)
    ensures n <= 10 && err.CloseError? && err.code == CloseAbnormalClosure ==>
      (ShouldAttemptReconnect(err, n) <==> IsEofError(err) || Contains(err.text, "unexpected EOF"))
    ensures n <= 10 && (err.Eof? || err.Other? || err.NoError?) ==> ShouldAttemptReconnect(err, n)
    ensures n <= 10 && err.CloseError? && err.code !in {ClosePolicyViolation, CloseUnsupportedData, CloseAbnormalClosure}
      ==> ShouldAttemptReconnect(err, n)
  {
  }

  /** The quality event `handleReadError` records for a read error. */
  function ReadErrorEvent(err: WsError): (ev: string)
    ensures ev in {EvDisconnect, EvAbnormalClosure, EvTimeoutError, EvNetworkError}
  {
    if err.CloseError? then
      if err.code in {CloseNormalClosure, CloseGoingAway, ClosePolicyViolation, CloseUnsupportedData} then EvDisconnect
      else EvAbnormalClosure
    else if err.NetError? then (if err.timeout then EvTimeoutError else EvNetworkError)
    else if IsEofError(err) then EvAbnormalClosure
    else EvNetworkError
  }

  /** Exactly the normal, going-away, policy and unsupported-data closes avoid counting as an error. */
  lemma ReadErrorEventIsError(err: WsError)
    ensures IsErrorEvent(ReadErrorEvent(err)) <==>
      !(err.CloseError? && err.code in {CloseNormalClosure, CloseGoingAway, ClosePolicyViolation, CloseUnsupportedData})
  {
  }

  /** `connect`'s handshake-timeout multiplier: one more every three failures, at most five. */
  function TimeoutMultiplier(reconnectCount: int): (m: int)
    requires reconnectCount >= 0
    ensures 1 <= m <= 5
    ensures m == 5 || m * 3 - 3 <= reconnectCount < m * 3
  {
    var m := 1 + reconnectCount / 3;
    if m > 5 then 5 else m
  }

  /** The multiplier never decreases as failures accumulate. */
  lemma TimeoutMultiplierMonotone(a: int, b: int)
    requires 0 <= a <= b
    ensures TimeoutMultiplier(a) <= TimeoutMultiplier(b)
  {
  }

  /** The body of the authentication frame: the auth string's UTF-8 bytes. */
  function AuthBytes(authBody: string): seq<byte>
  {
    Utf8Encode(authBody)
  }

  /** `authResp`'s input: the body either fails to parse as JSON or carries a code (absent means 0). */
  datatype AuthReply = Unparsable | Parsed(code: int)

  /** One pass of `connectionManager`'s loop, as the caller sees it. */
  datatype ManagerStep = Stopped | Retrying | Running

  class Client {
    var state: int
    var hasConn: bool
    var authed: bool
    var sequenceId: int
    var reconnectCount: int
    var quality: Quality
    /** `HandshakeTimeout` of the last dial, in seconds. */
    var handshakeTimeout: int
    /** `baseDelay` of the reconnect back-off, in seconds. */
    var baseDelay: int
    const authBody: string

    ghost predicate Valid()
      reads this
    {
      IsInt32(sequenceId) && reconnectCount >= 0 && QualityValid(quality)
    }

    /** `StartWebsocket`'s initial client. */
    constructor (authBody: string)
      ensures Valid() && this.authBody == authBody
      ensures state == StateDisconnected && !hasConn && !authed && sequenceId == 0
      ensures reconnectCount == 0 && quality == Quality(0, 0, 0, 0, 0, 0, 0, 0, 0) && baseDelay == 1
    {
      this.authBody := authBody;
      state := StateDisconnected;
      hasConn := false;
      authed := false;
      sequenceId := 0;
      reconnectCount := 0;
      quality := Quality(0, 0, 0, 0, 0, 0, 0, 0, 0);
      handshakeTimeout := 0;
      baseDelay := 1;
    }

    /** `setState`: write the state only when it differs. */
    method SetState(s: int)
      modifies this`state
      ensures state == s
      ensures old(state) == s ==> unchanged(this)
    {
      if state != s {
        state := s;
      }
    }

    method UpdateConnectionQuality(ev: string)
      requires Valid()
      modifies this`quality
      ensures Valid() && quality == UpdateQuality(old(quality), ev)
    {
      UpdateKeepsMax(quality, ev);
      quality := UpdateQuality(quality, ev);
    }

    /**
     * `sendMsg`: with no connection it fails and leaves the sequence id alone;
     * otherwise it advances the sequence id, stamps it on the frame and writes
     * the frame, and the id stays advanced even if the write fails. `write`
     * is what `WriteMessage` gave; its error is returned as it is.
     */
    method SendMsg(version: int, operation: int, body: seq<byte>, write: Outcome)
      returns (err: Outcome, sent: Proto, frame: seq<byte>)
      requires Valid()
      modifies this`sequenceId
      ensures Valid()
      ensures !hasConn ==> err == Fail("连接为空") && sequenceId == old(sequenceId) && frame == []
      ensures hasConn ==>
        && sequenceId == Inc32(old(sequenceId))
        && sent.sequenceId == sequenceId && sent.headerLength == RawHeaderSize
        && sent.version == version && sent.operation == operation && sent.body == body
        && frame == Pack(version, operation, sequenceId, body)
        && err == write
    {
      sent := Proto(0, 0, version, operation, 0, body, []);
      if !hasConn {
        return Fail("连接为空"), sent, [];
      }
      sequenceId := Inc32(sequenceId);
      sent := sent.(sequenceId := sequenceId, headerLength := RawHeaderSize);
      frame := Pack(version, operation, sequenceId, body);
      err := write;
    }

    /**
     * `sendHeartBeat`: refused when not authenticated or not connected;
     * otherwise the id is advanced once here and once more by `sendMsg`.
     */
    method SendHeartBeat(write: Outcome) returns (err: Outcome, frame: seq<byte>)
      requires Valid()
      modifies this`sequenceId
      ensures Valid()
      ensures (!authed || !hasConn) ==> err.Fail? && sequenceId == old(sequenceId) && frame == []
      ensures !authed ==> err == Fail("not authenticated")
      ensures authed && !hasConn ==> err == Fail("connection is nil")
      ensures authed && hasConn ==>
        && sequenceId == Inc32(Inc32(old(sequenceId)))
        && frame == Pack(0, OpHeartbeat, sequenceId, []) && err == write
    {
      if !authed {
        return Fail("not authenticated"), [];
      }
      if !hasConn {
        return Fail("connection is nil"), [];
      }
      sequenceId := Inc32(sequenceId);
      var sent;
      err, sent, frame := SendMsg(0, OpHeartbeat, [], write);
    }

    /** `authResp`: authenticated only by a parsable reply with code 0. */
    method AuthResp(reply: AuthReply)
      modifies this`authed
      ensures authed == (old(authed) || reply == Parsed(0))
    {
      if reply.Unparsable? {
        return;
      }
      if reply.code != 0 {
        return;
      }
      authed := true;
    }

    /** `disconnect`: always Disconnected, no connection, not authenticated. */
    method Disconnect()
      requires Valid()
      modifies this`state, this`quality, this`hasConn, this`authed
      ensures Valid()
      ensures state == StateDisconnected && !hasConn && !authed
      ensures quality == UpdateQuality(old(quality), EvDisconnect)
    {
      SetState(StateDisconnected);
      UpdateConnectionQuality(EvDisconnect);
      hasConn := false;
      authed := false;
    }

    /**
     * `connect`: a failed dial leaves the client Disconnected with one more
     * reconnect; a dial that succeeds is followed by the auth frame, and a
     * failed auth write disconnects without touching the reconnect count.
     * Authentication itself waits for the server's reply (`AuthResp`).
     * `dial` and `authWrite` are what the dial and the auth write gave; a
     * failure returns their error wrapped as the source does.
     */
    method Connect(dial: Outcome, authWrite: Outcome) returns (err: Outcome)
      requires Valid()
      modifies this`state, this`quality, this`hasConn, this`authed, this`sequenceId,
               this`reconnectCount, this`handshakeTimeout
      ensures Valid()
      ensures handshakeTimeout == TimeoutMultiplier(old(reconnectCount)) * 15
      ensures quality == ConnectQuality(old(quality), dial.Pass?, authWrite.Pass?)
      ensures dial.Fail? ==>
        && err == Fail("连接失败: " + dial.error) && state == StateDisconnected && reconnectCount == old(reconnectCount) + 1
        && quality == UpdateQuality(UpdateQuality(old(quality), EvConnectAttempt), EvConnectFailed)
        && hasConn == old(hasConn) && authed == old(authed) && sequenceId == old(sequenceId)
      ensures dial.Pass? && authWrite.Pass? ==>
        && err.Pass? && state == StateConnected && hasConn && authed == old(authed)
        && reconnectCount == old(reconnectCount) && sequenceId == Inc32(old(sequenceId))
        && quality == UpdateQuality(UpdateQuality(old(quality), EvConnectAttempt), EvConnectSuccess)
      ensures dial.Pass? && authWrite.Fail? ==>
        && err == Fail("认证失败: " + authWrite.error) && state == StateDisconnected && !hasConn && !authed
        && reconnectCount == old(reconnectCount) && sequenceId == Inc32(old(sequenceId))
        && quality == UpdateQuality(UpdateQuality(UpdateQuality(UpdateQuality(old(quality),
             EvConnectAttempt), EvConnectSuccess), EvDisconnect), EvConnectFailed)
    {
      SetState(StateConnecting);
      UpdateConnectionQuality(EvConnectAttempt);
      handshakeTimeout := TimeoutMultiplier(reconnectCount) * 15;
      if dial.Fail? {
        SetState(StateDisconnected);
        reconnectCount := reconnectCount + 1;
        UpdateConnectionQuality(EvConnectFailed);
        return Fail("连接失败: " + dial.error);
      }
      hasConn := true;
      SetState(StateConnected);
      UpdateConnectionQuality(EvConnectSuccess);
      var authErr, sent, frame := SendMsg(0, OpAuth, AuthBytes(authBody), authWrite);
      if authErr.Fail? {
        Disconnect();
        UpdateConnectionQuality(EvConnectFailed);
        return Fail("认证失败: " + authErr.error);
      }
      err := Pass;
    }

    /**
     * One iteration of `connectionManager` without its goroutines: stop when
     * shutting down; after a failed connect give up (ShuttingDown) once the
     * reconnect count has reached ten, else enter Reconnecting and count a
     * reconnect attempt (`waitForReconnect` without its wait); after a
     * successful connect reset the count.
     */
    method ManagerIteration(dial: Outcome, authWrite: Outcome) returns (step: ManagerStep)
      requires Valid()
      modifies this`state, this`quality, this`hasConn, this`authed, this`sequenceId,
               this`reconnectCount, this`handshakeTimeout
      ensures Valid()
      ensures old(state) == StateShuttingDown ==> step == Stopped && unchanged(this)
      ensures old(state) != StateShuttingDown ==>
        && handshakeTimeout == TimeoutMultiplier(old(reconnectCount)) * 15
        && sequenceId == (if dial.Pass? then Inc32(old(sequenceId)) else old(sequenceId))
        && hasConn == (if dial.Pass? then authWrite.Pass? else old(hasConn))
        && authed == (if dial.Pass? && authWrite.Fail? then false else old(authed))
        && quality == (if step == Retrying then UpdateQuality(ConnectQuality(old(quality), dial.Pass?, authWrite.Pass?), EvReconnectAttempt)
                       else ConnectQuality(old(quality), dial.Pass?, authWrite.Pass?))
      ensures old(state) != StateShuttingDown && dial.Pass? && authWrite.Pass? ==>
        step == Running && reconnectCount == 0 && state == StateConnected
      ensures old(state) != StateShuttingDown && !(dial.Pass? && authWrite.Pass?) ==>
        && reconnectCount == old(reconnectCount) + (if dial.Pass? then 0 else 1)
        && step != Running
        && (step == Stopped <==> reconnectCount >= MaxReconnects)
        && (step == Stopped ==> state == StateShuttingDown)
        && (step == Retrying ==> state == StateReconnecting)
    {
      if state == StateShuttingDown {
        return Stopped;
      }
      var err := Connect(dial, authWrite);
      if err.Fail? {
        if reconnectCount >= MaxReconnects {
          SetState(StateShuttingDown);
          return Stopped;
        }
        SetState(StateReconnecting);
        UpdateConnectionQuality(EvReconnectAttempt);
        return Retrying;
      }
      reconnectCount := 0;
      step := Running;
    }

    /**
     * `handleReadError` without its logging: record the error's quality
     * event, adjust the base back-off for an abnormal closure, disconnect, and
     * shut down when the error does not warrant a reconnect.
     */
    method HandleReadError(err: WsError)
      requires Valid()
      modifies this`state, this`quality, this`hasConn, this`authed, this`baseDelay
      ensures Valid() && !hasConn && !authed
      ensures quality == UpdateQuality(UpdateQuality(old(quality), ReadErrorEvent(err)), EvDisconnect)
      ensures state == (if ShouldAttemptReconnect(err, old(quality).consecutiveErrors) then StateDisconnected else StateShuttingDown)
      ensures err.CloseError? && err.code == CloseAbnormalClosure ==>
        baseDelay == AbnormalBaseDelay(IsEofError(err), UpdateQuality(old(quality), EvAbnormalClosure))
      ensures !(err.CloseError? && err.code == CloseAbnormalClosure) ==> baseDelay == old(baseDelay)
    {
      var shouldReconnect := ShouldAttemptReconnect(err, quality.consecutiveErrors);
      UpdateConnectionQuality(ReadErrorEvent(err));
      if err.CloseError? && err.code == CloseAbnormalClosure {
        baseDelay := AbnormalBaseDelay(IsEofError(err), quality);
      }
      if err.CloseError? && (err.code == ClosePolicyViolation || err.code == CloseUnsupportedData) {
        shouldReconnect := false;
      }
      Disconnect();
      if !shouldReconnect {
        SetState(StateShuttingDown);
      }
    }
  }

  /**
   * The base back-off after a 1006 close: 2 s when the error looks like an
   * EOF, else 5 s, and 10 s once more than five abnormal closures make up
   * more than half of all connections.
   */
  function AbnormalBaseDelay(eof: bool, q: Quality): (d: int)
    ensures d in {2, 5, 10}
    ensures d == 10 <==> q.abnormalClosures > 5 && q.totalConnections > 0 && 2 * q.abnormalClosures > q.totalConnections
  {
    var d := if eof then 2 else 5;
    if q.abnormalClosures > 5 && q.totalConnections > 0 && 2 * q.abnormalClosures > q.totalConnections then 10 else d
  }

  /**
   * `waitForReconnect`'s delay in seconds before jitter: the base doubled per
   * reconnect so far, capped at 30 s, plus 5 s per consecutive error beyond
   * five, doubled again when more than half of over ten connections closed
   * abnormally.
   */
  function ReconnectDelay(baseDelay: nat, reconnectCount: nat, q: Quality): (d: int)
    ensures d >= 0
    ensures d <= 2 * (30 + (if q.consecutiveErrors > 5 then (q.consecutiveErrors - 5) * 5 else 0))
  {
    var exp := baseDelay * Pow2(reconnectCount);
    var capped := if exp > 30 then 30 else exp;
    var withBreaker := if q.consecutiveErrors > 5 then capped + (q.consecutiveErrors - 5) * 5 else capped;
    if q.totalConnections > 10 && 2 * q.abnormalClosures > q.totalConnections then 2 * withBreaker else withBreaker
  }

  /** Without errors or abnormal closures the delay doubles with each reconnect until the cap. */
  lemma {:induction false} ReconnectDelayDoubles(baseDelay: nat, n: nat, q: Quality)
    requires q.consecutiveErrors <= 5 && q.totalConnections <= 10
    requires baseDelay * Pow2(n + 1) <= 30
    ensures ReconnectDelay(baseDelay, n + 1, q) == 2 * ReconnectDelay(baseDelay, n, q)
  {
    assert Pow2(n + 1) == 2 * Pow2(n);
    assert baseDelay * Pow2(n + 1) == 2 * (baseDelay * Pow2(n));
  }
}
